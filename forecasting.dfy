/**
 * ForecastingService: an ordinary least squares line over the positions
 * x = 0..n-1 of the last 14 sorted readings, blended 60/40 with their mean,
 * clamped at zero and widened by two standard deviations; and the trend
 * label of the whole history.
 *
 * Math.Sqrt is not modelled: the standard deviation of the recent window is
 * a parameter sigma with IsStdDev(sigma, window).
 */
module Forecasting {
  import opened Numeric
  import opened EnergyReading
  import opened Series

  datatype TrendDirection = Increasing | Decreasing | Stable | Unknown

  datatype ForecastResult = ForecastResult(
    date: int,
    predictedKwh: real,
    confidenceLower: real,
    confidenceUpper: real,
    forecastMethod: string)

  datatype ForecastSummary = ForecastSummary(
    forecasts: seq<ForecastResult>,
    averageHistoricalConsumption: real,
    trendDirection: TrendDirection,
    trendStrength: real)

  datatype Line = Line(slope: real, intercept: real)

  const RecentDays: int := 14
  const TrendWeight: real := 0.6
  const AverageWeight: real := 0.4
  const MethodLabel: string := "Linear Trend (60%) + Moving Average (40%)"

  // ------------------------------------------------------- least squares

  /** The running sums of CalculateLinearRegression over the points (x, ys[x]), x = 0..n-1:
      n, Sum x, Sum x^2, Sum y and Sum x*y. */
  datatype Moments = Moments(count: real, sumX: real, sumXX: real, sumY: real, sumXY: real)

  /** One turn of the loop: the point (count, y) joins the sums. */
  function AddPoint(m: Moments, y: real): Moments
  {
    var x := m.count;
    Moments(m.count + 1.0, m.sumX + x, m.sumXX + x * x, m.sumY + y, m.sumXY + x * y)
  }

  /** Sum of x over x = 0..n-1. */
  function SumX(n: nat): real
  {
    if n == 0 then 0.0 else SumX(n - 1) + (n - 1) as real
  }

  /** Sum of x^2 over x = 0..n-1. */
  function SumXX(n: nat): real
  {
    if n == 0 then 0.0 else SumXX(n - 1) + ((n - 1) as real) * ((n - 1) as real)
  }

  /** Sum of x * ys[x]. */
  function SumXY(ys: seq<real>): real
  {
    if |ys| == 0 then 0.0 else SumXY(ys[..|ys| - 1]) + ((|ys| - 1) as real) * ys[|ys| - 1]
  }

  /** The sums of the points (x, ys[x]). */
  function MomentsOf(ys: seq<real>): Moments
  {
    Moments(|ys| as real, SumX(|ys|), SumXX(|ys|), Sum(ys), SumXY(ys))
  }

  /** The sums grow point by point, as in the loop. */
  lemma MomentsStep(ys: seq<real>)
    requires |ys| > 0
    ensures MomentsOf(ys) == AddPoint(MomentsOf(ys[..|ys| - 1]), ys[|ys| - 1])
  {
  }

  lemma {:induction false} SumXClosed(n: nat)
    ensures SumX(n) == (n as real) * ((n as real) - 1.0) / 2.0
  {
    if n > 0 {
      SumXClosed(n - 1);
    }
  }

  lemma {:induction false} SumXXClosed(n: nat)
    ensures SumXX(n) == (n as real) * ((n as real) - 1.0) * (2.0 * (n as real) - 1.0) / 6.0
  {
    if n > 0 {
      SumXXClosed(n - 1);
    }
  }

  /** The determinant of the normal equations, the slope's denominator n Sum x^2 - (Sum x)^2. */
  function Det(m: Moments): real
  {
    m.count * m.sumXX - m.sumX * m.sumX
  }

  /** From two points on the determinant is n^2 (n^2 - 1) / 12 > 0, so the slope is defined. */
  lemma DeterminantPositive(ys: seq<real>)
    requires |ys| >= 2
    ensures MomentsOf(ys).count > 0.0 && Det(MomentsOf(ys)) > 0.0
  {
    var n := |ys|;
    SumXClosed(n);
    SumXXClosed(n);
    DenominatorAlgebra(n as real, SumX(n), SumXX(n));
  }

  lemma DenominatorAlgebra(x: real, sx: real, sxx: real)
    requires x >= 2.0
    requires sx == x * (x - 1.0) / 2.0
    requires sxx == x * (x - 1.0) * (2.0 * x - 1.0) / 6.0
    ensures x * sxx - sx * sx == x * x * (x * x - 1.0) / 12.0
    ensures x * sxx - sx * sx > 0.0
  {
    assert x * x >= 4.0;
    assert x * x * (x * x - 1.0) > 0.0;
  }

  /** The closed form of CalculateLinearRegression:
      slope = (n Sum xy - Sum x Sum y) / (n Sum x^2 - (Sum x)^2), intercept = (Sum y - slope Sum x) / n. */
  function Fit(m: Moments): Line
    requires m.count > 0.0 && Det(m) != 0.0
  {
    var slope := (m.count * m.sumXY - m.sumX * m.sumY) / Det(m);
    Line(slope, (m.sumY - slope * m.sumX) / m.count)
  }

  /** The normal equations of least squares: the residuals y - (slope x + intercept) sum to zero,
      and so do the residuals weighted by x. */
  predicate NormalEquations(m: Moments, line: Line)
  {
    && m.sumY == line.slope * m.sumX + line.intercept * m.count
    && m.sumXY == line.slope * m.sumXX + line.intercept * m.sumX
  }

  /** The closed form solves the normal equations. */
  lemma FitSolvesNormalEquations(m: Moments)
    requires m.count > 0.0 && Det(m) != 0.0
    ensures NormalEquations(m, Fit(m))
  {
    var x, sx, sxx, sy, sxy := m.count, m.sumX, m.sumXX, m.sumY, m.sumXY;
    var a, b := Fit(m).slope, Fit(m).intercept;
    assert a * (x * sxx - sx * sx) == x * sxy - sx * sy;
    assert b * x == sy - a * sx;
    assert x * (a * sxx + b * sx) == a * (x * sxx) + (b * x) * sx;
    assert (b * x) * sx == sy * sx - a * sx * sx;
    assert x * (a * sxx + b * sx) == x * sxy;
    assert x * ((a * sxx + b * sx) - sxy) == 0.0;
  }

  /** The normal equations have no other solution. */
  lemma FitUnique(m: Moments, line: Line)
    requires m.count > 0.0 && Det(m) != 0.0 && NormalEquations(m, line)
    ensures Fit(m) == line
  {
    var x, sx, sxx, sy, sxy := m.count, m.sumX, m.sumXX, m.sumY, m.sumXY;
    var a, b := line.slope, line.intercept;
    assert x * sxy - sx * sy == a * (x * sxx - sx * sx);
  }

  /** CalculateLinearRegression: fewer than two points give slope 0 and the first value (or 0). */
  function LeastSquares(ys: seq<real>): Line
  {
    if |ys| < 2 then Line(0.0, if |ys| == 1 then ys[0] else 0.0)
    else
      DeterminantPositive(ys);
      Fit(MomentsOf(ys))
  }

  /** From two points on, the fitted line is exactly the solution of the normal equations. */
  lemma LeastSquaresCharacterized(ys: seq<real>, line: Line)
    requires |ys| >= 2
    ensures LeastSquares(ys) == line <==> NormalEquations(MomentsOf(ys), line)
  {
    DeterminantPositive(ys);
    FitSolvesNormalEquations(MomentsOf(ys));
    if NormalEquations(MomentsOf(ys), line) {
      FitUnique(MomentsOf(ys), line);
    }
  }

  predicate LinearSeries(ys: seq<real>, a: real, b: real)
  {
    forall i :: 0 <= i < |ys| ==> ys[i] == a * (i as real) + b
  }

  /** A point on the line keeps the normal equations of a line that solves them. */
  lemma NormalEquationsStep(m: Moments, line: Line, x: real, y: real)
    requires NormalEquations(m, line) && x == m.count && y == line.slope * x + line.intercept
    ensures NormalEquations(AddPoint(m, y), line)
  {
    var a, b := line.slope, line.intercept;
    assert x * y == a * (x * x) + b * x;
  }

  lemma {:induction false} LinearSeriesNormalEquations(ys: seq<real>, a: real, b: real)
    requires LinearSeries(ys, a, b)
    ensures NormalEquations(MomentsOf(ys), Line(a, b))
  {
    if |ys| > 0 {
      var front := ys[..|ys| - 1];
      assert LinearSeries(front, a, b);
      LinearSeriesNormalEquations(front, a, b);
      LinearSeriesStep(ys, a, b);
    }
  }

  lemma LinearSeriesStep(ys: seq<real>, a: real, b: real)
    requires |ys| > 0 && LinearSeries(ys, a, b)
    requires NormalEquations(MomentsOf(ys[..|ys| - 1]), Line(a, b))
    ensures NormalEquations(MomentsOf(ys), Line(a, b))
  {
    var m, y := MomentsOf(ys[..|ys| - 1]), ys[|ys| - 1];
    LastPointOnLine(ys, a, b);
    NormalEquationsStep(m, Line(a, b), m.count, y);
    MomentsStep(ys);
  }

  lemma LastPointOnLine(ys: seq<real>, a: real, b: real)
    requires |ys| > 0 && LinearSeries(ys, a, b)
    ensures ys[|ys| - 1] == a * MomentsOf(ys[..|ys| - 1]).count + b
  {
    assert MomentsOf(ys[..|ys| - 1]).count == (|ys| - 1) as real;
  }

  /** Points that lie on a line are fitted by exactly that line. */
  lemma LinearSeriesFit(ys: seq<real>, a: real, b: real)
    requires |ys| >= 2 && LinearSeries(ys, a, b)
    ensures LeastSquares(ys) == Line(a, b)
  {
    LinearSeriesNormalEquations(ys, a, b);
    LeastSquaresCharacterized(ys, Line(a, b));
  }

  lemma ConstantIsLinear(ys: seq<real>, c: real)
    requires Constant(ys, c)
    ensures LinearSeries(ys, 0.0, c)
  {
  }

  /** The loop of CalculateLinearRegression: running sums of x, y, x*y and x*x for x = 0..n-1. */
  method RegressionSums(data: seq<DailyReading>) returns (sumX: real, sumY: real, sumXY: real, sumXX: real)
    ensures MomentsOf(Kwhs(data)) == Moments(|data| as real, sumX, sumXX, sumY, sumXY)
  {
    var ys := Kwhs(data);
    sumX, sumY, sumXY, sumXX := 0.0, 0.0, 0.0, 0.0;
    for i := 0 to |data|
      invariant MomentsOf(ys[..i]) == Moments(i as real, sumX, sumXX, sumY, sumXY)
    {
      var x := i as real;
      var y := data[i].kwh;
      assert ys[..i + 1][..i] == ys[..i];
      MomentsStep(ys[..i + 1]);
      sumX := sumX + x;
      sumY := sumY + y;
      sumXY := sumXY + x * y;
      sumXX := sumXX + x * x;
    }
    assert ys[..|data|] == ys;
  }

  /** CalculateLinearRegression: the four sums, then the closed form. */
  method CalculateLinearRegression(data: seq<DailyReading>) returns (slope: real, intercept: real)
    ensures Line(slope, intercept) == LeastSquares(Kwhs(data))
    ensures |data| < 2 ==> slope == 0.0 && intercept == (if |data| == 1 then data[0].kwh else 0.0)
  {
    var n := |data|;
    if n < 2 {
      return 0.0, if n == 1 then data[0].kwh else 0.0;
    }
    var sumX, sumY, sumXY, sumXX := RegressionSums(data);
    var count := n as real;
    SumsDeterminant(Kwhs(data), count, sumX, sumXX, sumY, sumXY);
    slope := (count * sumXY - sumX * sumY) / (count * sumXX - sumX * sumX);
    intercept := (sumY - slope * sumX) / count;
    SumsFit(Kwhs(data), count, sumX, sumXX, sumY, sumXY, slope, intercept);
  }

  /** The loop's sums of two or more points leave a nonzero denominator. */
  lemma SumsDeterminant(ys: seq<real>, count: real, sumX: real, sumXX: real, sumY: real, sumXY: real)
    requires |ys| >= 2 && MomentsOf(ys) == Moments(count, sumX, sumXX, sumY, sumXY)
    ensures count > 0.0 && count * sumXX - sumX * sumX != 0.0
  {
    DeterminantPositive(ys);
  }

  /** The closed form evaluated on the loop's sums is the fitted line. */
  lemma SumsFit(ys: seq<real>, count: real, sumX: real, sumXX: real, sumY: real, sumXY: real,
                slope: real, intercept: real)
    requires |ys| >= 2 && MomentsOf(ys) == Moments(count, sumX, sumXX, sumY, sumXY)
    requires count > 0.0 && count * sumXX - sumX * sumX != 0.0
    requires slope == (count * sumXY - sumX * sumY) / (count * sumXX - sumX * sumX)
    requires intercept == (sumY - slope * sumX) / count
    ensures LeastSquares(ys) == Line(slope, intercept)
  {
    FitValues(count, sumX, sumXX, sumY, sumXY, slope, intercept);
  }

  lemma FitValues(count: real, sumX: real, sumXX: real, sumY: real, sumXY: real, slope: real, intercept: real)
    requires count > 0.0 && count * sumXX - sumX * sumX != 0.0
    requires slope == (count * sumXY - sumX * sumY) / (count * sumXX - sumX * sumX)
    requires intercept == (sumY - slope * sumX) / count
    ensures Fit(Moments(count, sumX, sumXX, sumY, sumXY)) == Line(slope, intercept)
  {
  }

  // --------------------------------------------------------------- trend

  /** The total of the kWh values grows by the appended reading's. */
  lemma SumKwhsSnoc(t: seq<DailyReading>, y: DailyReading)
    ensures Sum(Kwhs(t + [y])) == Sum(Kwhs(t)) + y.kwh
  {
    var k := Kwhs(t + [y]);
    assert k[..|k| - 1] == Kwhs(t);
  }

  lemma {:induction false} SumInsertByDate(t: seq<DailyReading>, x: DailyReading)
    ensures Sum(Kwhs(InsertByDate(t, x))) == Sum(Kwhs(t)) + x.kwh
  {
    if |t| == 0 {
      SumKwhsSnoc(t, x);
      assert t + [x] == [x];
    } else if t[|t| - 1].date <= x.date {
      SumKwhsSnoc(t, x);
    } else {
      var front := t[..|t| - 1];
      var last := t[|t| - 1];
      SumInsertByDate(front, x);
      SumKwhsSnoc(InsertByDate(front, x), last);
      SumKwhsSnoc(front, last);
      assert t == front + [last];
    }
  }

  /** Sorting does not change the total, so neither the mean. */
  lemma {:induction false} SumSortByDate(s: seq<DailyReading>)
    ensures Sum(Kwhs(SortByDate(s))) == Sum(Kwhs(s))
  {
    if |s| > 0 {
      var front := s[..|s| - 1];
      var last := s[|s| - 1];
      SumSortByDate(front);
      SumInsertByDate(SortByDate(front), last);
      SumKwhsFront(s);
      assert SortByDate(s) == InsertByDate(SortByDate(front), last);
    }
  }

  lemma SumKwhsFront(s: seq<DailyReading>)
    requires |s| > 0
    ensures Sum(Kwhs(s)) == Sum(Kwhs(s[..|s| - 1])) + s[|s| - 1].kwh
  {
    assert Kwhs(s)[..|s| - 1] == Kwhs(s[..|s| - 1]);
  }

  /** The direction CalculateTrend reports; the strict Stable test makes a flat zero series Decreasing. */
  function TrendDirectionOf(data: seq<DailyReading>): TrendDirection
  {
    if |data| < 2 then Unknown
    else
      var sorted := SortByDate(data);
      var slope := LeastSquares(Kwhs(sorted)).slope;
      var avgConsumption := Mean(Kwhs(sorted));
      if Abs(slope) < avgConsumption * 0.01 then Stable
      else if slope > 0.0 then Increasing
      else Decreasing
  }

  /** CalculateTrend; strength = |slope| / average * 100, an unguarded division in the source. */
  function CalculateTrend(data: seq<DailyReading>): (r: (TrendDirection, real))
    requires |data| < 2 || Mean(Kwhs(data)) != 0.0
    ensures r.0 == TrendDirectionOf(data)
    ensures |data| < 2 ==> r == (Unknown, 0.0)
    ensures |data| >= 2 ==>
      r.1 == Abs(LeastSquares(Kwhs(SortByDate(data))).slope) / Mean(Kwhs(data)) * 100.0
  {
    if |data| < 2 then (Unknown, 0.0)
    else
      var sorted := SortByDate(data);
      SumSortByDate(data);
      var slope := LeastSquares(Kwhs(sorted)).slope;
      var avgConsumption := Mean(Kwhs(sorted));
      (TrendDirectionOf(data), Abs(slope) / avgConsumption * 100.0)
  }

  /** The classification, both ways: Stable iff |slope| < 1% of the mean, otherwise by the sign of the
      slope.  It is stated with the mean of the readings as given, which the source takes after
      sorting; the two agree because sorting keeps the total (SumSortByDate). */
  lemma TrendClassification(data: seq<DailyReading>)
    requires |data| >= 2
    ensures var slope := LeastSquares(Kwhs(SortByDate(data))).slope;
      var avg := Mean(Kwhs(data));
      && (TrendDirectionOf(data) == Stable <==> Abs(slope) < avg * 0.01)
      && (TrendDirectionOf(data) == Increasing <==> !(Abs(slope) < avg * 0.01) && slope > 0.0)
      && (TrendDirectionOf(data) == Decreasing <==> !(Abs(slope) < avg * 0.01) && slope <= 0.0)
      && TrendDirectionOf(data) != Unknown
  {
    SumSortByDate(data);
  }

  lemma ConstantSorted(s: seq<DailyReading>, c: real)
    requires Constant(Kwhs(s), c)
    ensures Constant(Kwhs(SortByDate(s)), c)
  {
    var t := SortByDate(s);
    forall i | 0 <= i < |t|
      ensures t[i].kwh == c
    {
      assert t[i] in multiset(s);
    }
  }

  /** A flat history of a positive value is Stable; a flat history at zero is labelled Decreasing
      because the Stable test |slope| < 0.01 * average is strict. */
  lemma FlatHistoryTrend(data: seq<DailyReading>, c: real)
    requires |data| >= 2 && Constant(Kwhs(data), c)
    ensures c > 0.0 ==> TrendDirectionOf(data) == Stable
    ensures c == 0.0 ==> TrendDirectionOf(data) == Decreasing
  {
    var ys := Kwhs(SortByDate(data));
    ConstantSorted(data, c);
    ConstantIsLinear(ys, c);
    LinearSeriesFit(ys, 0.0, c);
    MeanConstant(ys, c);
  }

  // ------------------------------------------------------------ forecast

  /** TakeLast(14) of the sorted history. */
  function Recent(sorted: seq<DailyReading>): (r: seq<DailyReading>)
    ensures |r| == (if |sorted| < RecentDays then |sorted| else RecentDays)
    ensures r == sorted[|sorted| - |r|..]
  {
    if |sorted| <= RecentDays then sorted else sorted[|sorted| - RecentDays..]
  }

  /** The prediction for step = 1, 2, ... from a line fitted to count points with the given mean:
      60% of the line at x = count - 1 + step + 1 = count + step, 40% of the mean, at least 0. */
  function TrendPrediction(line: Line, count: int, mean: real, step: int): real
  {
    Max(0.0, (line.slope * ((count + step) as real) + line.intercept) * TrendWeight + mean * AverageWeight)
  }

  /** The prediction for the step-th day after the history, from its recent window. */
  function Prediction(recent: seq<real>, step: int): real
    requires |recent| > 0
  {
    TrendPrediction(LeastSquares(recent), |recent|, Mean(recent), step)
  }

  /** The forecast record for day lastDate + step. */
  predicate ForecastFor(f: ForecastResult, lastDate: int, line: Line, count: int, mean: real, step: int, stdDev: real)
  {
    && f.date == lastDate + step
    && f.predictedKwh == TrendPrediction(line, count, mean, step)
    && f.confidenceLower == Max(0.0, f.predictedKwh - 2.0 * stdDev)
    && f.confidenceUpper == f.predictedKwh + 2.0 * stdDev
    && f.forecastMethod == MethodLabel
  }

  /** The forecast list GenerateForecastAsync promises for a history and a horizon. */
  ghost predicate ForecastsOf(forecasts: seq<ForecastResult>, historicalData: seq<DailyReading>, daysToForecast: int, stdDev: real)
  {
    if |historicalData| == 0 then forecasts == []
    else
      var sorted := SortByDate(historicalData);
      var recent := Kwhs(Recent(sorted));
      && |forecasts| == (if daysToForecast > 0 then daysToForecast else 0)
      && forall i :: 0 <= i < |forecasts| ==>
           ForecastFor(forecasts[i], sorted[|sorted| - 1].date, LeastSquares(recent), |recent|, Mean(recent), i + 1, stdDev)
  }

  /** The bounds every forecast keeps. */
  predicate WellBounded(f: ForecastResult)
  {
    0.0 <= f.confidenceLower <= f.predictedKwh <= f.confidenceUpper
  }

  /** The day loop of GenerateForecastAsync, for a fitted line and the window's mean. */
  method ForecastDays(lastDate: int, lastDataPoint: int, slope: real, intercept: real, movingAverage: real,
                      stdDev: real, daysToForecast: int)
    returns (forecasts: seq<ForecastResult>)
    requires stdDev >= 0.0
    ensures |forecasts| == (if daysToForecast > 0 then daysToForecast else 0)
    ensures forall j :: 0 <= j < |forecasts| ==>
      ForecastFor(forecasts[j], lastDate, Line(slope, intercept), lastDataPoint, movingAverage, j + 1, stdDev)
    ensures forall j :: 0 <= j < |forecasts| ==> WellBounded(forecasts[j])
  {
    forecasts := [];
    var i := 1;
    while i <= daysToForecast
      invariant 1 <= i && |forecasts| == i - 1
      invariant daysToForecast > 0 ==> i <= daysToForecast + 1
      invariant daysToForecast <= 0 ==> i == 1
      invariant forall j :: 0 <= j < |forecasts| ==>
        ForecastFor(forecasts[j], lastDate, Line(slope, intercept), lastDataPoint, movingAverage, j + 1, stdDev)
      invariant forall j :: 0 <= j < |forecasts| ==> WellBounded(forecasts[j])
    {
      var forecastDate := lastDate + i;
      var x := (lastDataPoint + i) as real;
      var trendValue := slope * x + intercept;
      var predictedKwh := trendValue * TrendWeight + movingAverage * AverageWeight;
      predictedKwh := Max(0.0, predictedKwh);
      var confidenceMargin := 2.0 * stdDev;
      forecasts := forecasts + [ForecastResult(forecastDate, predictedKwh,
                                               Max(0.0, predictedKwh - confidenceMargin),
                                               predictedKwh + confidenceMargin, MethodLabel)];
      i := i + 1;
    }
  }

  /** GenerateForecastAsync. */
  method GenerateForecast(historicalData: seq<DailyReading>, daysToForecast: int, stdDev: real)
    returns (forecasts: seq<ForecastResult>)
    requires |historicalData| == 0 || IsStdDev(stdDev, Kwhs(Recent(SortByDate(historicalData))))
    ensures ForecastsOf(forecasts, historicalData, daysToForecast, stdDev)
    ensures forall i :: 0 <= i < |forecasts| ==> WellBounded(forecasts[i])
  {
    var sortedData := SortByDate(historicalData);
    if |sortedData| == 0 {
      return [];
    }
    var recentData := Recent(sortedData);
    var movingAverage := Mean(Kwhs(recentData));
    var slope, intercept := CalculateLinearRegression(recentData);
    forecasts := ForecastDays(sortedData[|sortedData| - 1].date, |recentData|, slope, intercept, movingAverage,
                              stdDev, daysToForecast);
  }

  /** Consecutive forecasts are one day apart, so the forecast dates ascend strictly. */
  lemma ForecastDatesAscend(forecasts: seq<ForecastResult>, historicalData: seq<DailyReading>, daysToForecast: int, stdDev: real)
    requires |historicalData| > 0 && ForecastsOf(forecasts, historicalData, daysToForecast, stdDev)
    ensures forall i, j :: 0 <= i < j < |forecasts| ==> forecasts[i].date < forecasts[j].date
    ensures forall i :: 0 <= i < |forecasts| ==> forecasts[i].confidenceUpper - forecasts[i].predictedKwh == 2.0 * stdDev
  {
  }

  /** ForecastEnergyConsumptionAsync after the fetch. */
  method ForecastEnergyConsumption(historicalData: seq<DailyReading>, daysToForecast: int, stdDev: real)
    returns (summary: ForecastSummary)
    requires |historicalData| == 0 || IsStdDev(stdDev, Kwhs(Recent(SortByDate(historicalData))))
    requires |historicalData| < 2 || Mean(Kwhs(historicalData)) != 0.0
    ensures |historicalData| == 0 ==> summary == ForecastSummary([], 0.0, Unknown, 0.0)
    ensures |historicalData| > 0 ==>
      && ForecastsOf(summary.forecasts, historicalData, daysToForecast, stdDev)
      && summary.averageHistoricalConsumption == Mean(Kwhs(historicalData))
      && (summary.trendDirection, summary.trendStrength) == CalculateTrend(historicalData)
    ensures forall i :: 0 <= i < |summary.forecasts| ==> WellBounded(summary.forecasts[i])
  {
    if |historicalData| == 0 {
      return ForecastSummary([], 0.0, Unknown, 0.0);
    }
    var forecasts := GenerateForecast(historicalData, daysToForecast, stdDev);
    var (trendDirection, trendStrength) := CalculateTrend(historicalData);
    summary := ForecastSummary(forecasts, Mean(Kwhs(historicalData)), trendDirection, trendStrength);
  }

  /** A flat recent window at c >= 0 forecasts c on every day, with both bounds at c. */
  lemma FlatHistoryForecast(recent: seq<real>, c: real, stdDev: real, step: int)
    requires |recent| > 0 && Constant(recent, c) && c >= 0.0
    requires IsStdDev(stdDev, recent)
    ensures Prediction(recent, step) == c
    ensures Max(0.0, c - 2.0 * stdDev) == c && c + 2.0 * stdDev == c
  {
    if |recent| >= 2 {
      ConstantIsLinear(recent, c);
      LinearSeriesFit(recent, 0.0, c);
    }
    MeanConstant(recent, c);
    StdDevConstant(recent, c, stdDev);
  }
}
