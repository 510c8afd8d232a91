# Hydra Energy analytics core in Dafny

This project models the computational core of the Hydra Energy backend. The
core turns daily meter aggregates into four things:

- per-day analytics: a trailing 7-day moving average and anomaly flags;
- a short forecast: a least-squares trend blended with a 14-day mean, with ±2σ bounds;
- typed insights with severities and an overall assessment;
- a simulated weather series for Johannesburg, keyed by day.

The properties stated and proved are those each source file promises.

The model is split into these modules, one per file:

| file | module | models |
|---|---|---|
| `numeric.dfy` | `Numeric` | LINQ `Sum`/`Average`, population variance, `Where`; `Math.Abs`/`Math.Max` |
| `energy_reading.dfy` | `EnergyReading` | `EnergyDataResponse.Date` (proleptic Gregorian day numbers) and `KwhConsumption` |
| `series.dfy` | `Series` | the stable `OrderBy(d => d.Date)`, as an insertion sort with proved sortedness, permutation and stability |
| `analytics.dfy` | `Analytics` | `AnalyticsService` |
| `forecasting.dfy` | `Forecasting` | `ForecastingService` |
| `weather.dfy` | `Weather` | `WeatherService`: weighted choice, simulated series, `ToDictionary` keying |
| `insights.dfy` | `Insights` | `InsightsService` |

Modelling conventions:

- **Numbers.** A C# `double` is a Dafny `real`.
- **Dates.** A date is a day number counted from 0001-01-01, the day count of a .NET `DateTime`. `AddDays(1)` is `+ 1`.
- **Readings.** Every service after the fetch works on `DailyReading(date, kwh)`. `EnergyReading.Normalize` derives it from the raw records.
- **Standard deviation.** `Math.Sqrt` is not modelled. A standard deviation is a parameter `σ` with `σ ≥ 0` and `σ² =` the population variance (`Numeric.IsStdDev`).
- **Randomness.** `System.Random` is replaced by its draws. Each simulated day takes one `DayDraws` record: the variation, the condition, the feels-like offset and the humidity, in the order the loop consumes them.
- **Inputs as parameters.** The methods that fetch data take the fetched data as parameters: `AnalyzeEnergyData`, `ForecastEnergyConsumption` and `GenerateInsights`.
- **Insight text.** The message text of an insight or assessment is represented by its kind, the figures it prints and, where the sentence has variants, its wording tag.
- **Imperative code.** Loops that append to a list, or that update list elements in place, are methods with loop invariants over `seq` values. Each is proved against a specification function, and the properties are proved as lemmas about those functions.
- **Straight-line list building and LINQ queries.** These are functions.
- **Moving-average window.** The moving average at a position includes the current day. For `[10,10,10,10,10,10,10,30]` the day-8 average is `90/7`, and `Analytics.SpikeIsFlagged` proves that day 8 is flagged.
- **Weather keyed by day.** `ToDictionary` throws on two weather records for the same day; `Weather.WeatherDictionary` returns `None` there.
- **Rain test.** `Main.Contains("Rain", OrdinalIgnoreCase)` is `Weather.ToLower` of `Main` containing `"rain"`.

## Model

| member | source | states |
|---|---|---|
| EnergyReading.Date | Models/DTOs/EnergyDataResponse.cs:31 | defined exactly for the (year, month, day) the DateTime constructor accepts, and then is that day's number |
| EnergyReading.DayNumberInjective | Models/DTOs/EnergyDataResponse.cs:31 | two valid civil dates have the same day number iff year, month and day are equal |
| EnergyReading.DateDeterminedByDay | Models/DTOs/EnergyDataResponse.cs:31 | two records have the same Date iff their Year, Month and Day agree |
| EnergyReading.KwhConsumption | Models/DTOs/EnergyDataResponse.cs:36 | kWh × 1000 is exactly Max − Min |
| EnergyReading.KwhConsumptionSign | Models/DTOs/EnergyDataResponse.cs:36 | kWh ≥ 0 iff Max ≥ Min, and kWh = 0 iff Max = Min |
| EnergyReading.KwhConsumptionIgnoresAggregates | Models/DTOs/EnergyDataResponse.cs:36 | records that agree on Min and Max have the same kWh, whatever their Sum, Count or SensorId |
| EnergyReading.Normalize | Models/DTOs/EnergyDataResponse.cs:31-36 | succeeds iff every record has a valid date; then reading i is record i's day and kWh |
| Series.SortByDate | Services/AnalyticsService.cs:70 | OrderBy by date: same length, sorted by date, a permutation of the input |
| Series.SortByDateStable | Services/AnalyticsService.cs:70 | the readings of each date keep their input order |
| Series.SortByDateSorted | Services/ForecastingService.cs:129 | an already date-sorted series is left unchanged |
| Analytics.CalculateMovingAverage | Services/AnalyticsService.cs:66-94 | one result per reading, in ascending date order; result i carries sorted reading i's date and kWh, the window mean at i (unset before windowSize − 1), and no flag |
| Analytics.WindowMean | Services/AnalyticsService.cs:78-82 | the loop's Skip/Take window is the slice [i − windowSize + 1, i] that MovingAverageAt averages |
| Analytics.MarkAnomalies | Services/AnalyticsService.cs:110-127 | same length; each result with a moving average gets deviation = kWh − MA and is flagged if it already was or if abs(deviation) > threshold·σ, its reason set whenever abs(deviation) exceeds that bound and kept otherwise; date, kWh and MA are untouched, and results without an MA are unchanged |
| Analytics.DetectAnomalies | Services/AnalyticsService.cs:96-130 | result i is sorted reading i annotated with the 7-day MA and the caller's threshold, with σ over all input values |
| Analytics.CalculateMovingAverageAndAnomalies | Services/AnalyticsService.cs:132-169 | the same with the threshold fixed at 1.5 and the detailed reason |
| Analytics.MarkedIsAnnotated | Services/AnalyticsService.cs:147-166 | marking a fresh moving-average record gives exactly the annotated record |
| Analytics.AnalyzeEnergyData | Services/AnalyticsService.cs:18-64 | empty input gives (0, 0, 0, []); otherwise total = sum, average = mean, anomaly count = number of flagged results, results as annotated |
| Analytics.NoAverageNoAnomaly | Services/AnalyticsService.cs:112 | a result without a moving average is never flagged and has no deviation or reason |
| Analytics.AnomalyCriterion | Services/AnalyticsService.cs:149-160 | deviation = kWh − MA; flagged iff abs(deviation) > threshold·σ; a reason exactly when flagged, saying "above" iff kWh > MA |
| Analytics.Reason | Services/AnalyticsService.cs:122-124 | the reason says above (or High) iff the deviation is positive |
| Analytics.EarlyDaysNeverFlagged | Services/AnalyticsService.cs:78 | positions before windowSize − 1 have no MA and are never flagged |
| Analytics.CountAnomaliesZero | Services/AnalyticsService.cs:50 | the anomaly count is 0 iff no result is flagged |
| Analytics.ShortSeriesHasNoAnomalies | Services/AnalyticsService.cs:44-52 | a summary over fewer than 7 readings reports no anomaly |
| Analytics.SpikeIsFlagged | Services/AnalyticsService.cs:136-160 | seven days at 10 kWh then 30 kWh: the day-8 MA is 90/7 and day 8 is flagged |
| Forecasting.MomentsStep | Services/ForecastingService.cs:166-175 | the sums over n + 1 points are the sums over n points plus the point (n, y) |
| Forecasting.DeterminantPositive | Services/ForecastingService.cs:178 | from two points on, the slope denominator n·Σx² − (Σx)² is positive |
| Forecasting.FitSolvesNormalEquations | Services/ForecastingService.cs:178-179 | the closed-form slope and intercept solve the least-squares normal equations |
| Forecasting.FitUnique | Services/ForecastingService.cs:178-179 | the normal equations have no other solution |
| Forecasting.LeastSquaresCharacterized | Services/ForecastingService.cs:152-182 | from two points on, the regression returns a line iff that line solves the normal equations of the points (x, ys[x]) |
| Forecasting.LinearSeriesFit | Services/ForecastingService.cs:152-182 | points lying on a line are fitted by exactly that line |
| Forecasting.RegressionSums | Services/ForecastingService.cs:161-175 | the loop's sumX, sumY, sumXY and sumXX are the moments of (x, y) for x = 0..n−1 |
| Forecasting.CalculateLinearRegression | Services/ForecastingService.cs:152-182 | the result is the least-squares line of the kWh values; fewer than two points give slope 0 and the first value or 0 |
| Forecasting.SumSortByDate | Services/ForecastingService.cs:129-132 | sorting by date keeps the total, hence the mean |
| Forecasting.CalculateTrend | Services/ForecastingService.cs:122-150 | fewer than 2 readings give (Unknown, 0); otherwise the direction of TrendDirectionOf and strength abs(slope) / mean · 100 |
| Forecasting.TrendClassification | Services/ForecastingService.cs:136-147 | Stable iff abs(slope) < 1% of the mean; Increasing iff not Stable and slope > 0; Decreasing iff not Stable and slope ≤ 0; never Unknown |
| Forecasting.FlatHistoryTrend | Services/ForecastingService.cs:129-147 | a constant history c > 0 is Stable; a constant zero history is Decreasing, the strict Stable test |
| Forecasting.Recent | Services/ForecastingService.cs:79 | TakeLast(14): the last min(14, n) sorted readings |
| Forecasting.ForecastDays | Services/ForecastingService.cs:89-117 | max(0, days) results; result i is dated lastDate + i with the blended, clamped prediction and ±2σ bounds, and is well bounded |
| Forecasting.GenerateForecast | Services/ForecastingService.cs:67-120 | empty history gives []; otherwise the ForecastsOf list fitted on the recent window, every forecast with 0 ≤ lower ≤ predicted ≤ upper |
| Forecasting.ForecastDatesAscend | Services/ForecastingService.cs:92-114 | forecast dates strictly increase and upper − predicted = 2σ |
| Forecasting.ForecastEnergyConsumption | Services/ForecastingService.cs:18-65 | empty history gives ([], 0, Unknown, 0); otherwise those forecasts, the mean, and the trend of CalculateTrend |
| Forecasting.FlatHistoryForecast | Services/ForecastingService.cs:98-114 | a constant recent window c ≥ 0 predicts c on every day, with both bounds equal to c |
| Numeric.StdDevConstant | Services/ForecastingService.cs:184-194 | the standard deviation of a constant series is 0 |
| Weather.FirstCrossing | Services/WeatherService.cs:159-166 | from index i, the first index whose running total exceeds the target, or the last index when none does |
| Weather.ChoiceIndex | Services/WeatherService.cs:153-167 | the smallest index whose running weight total exceeds draw·Σweights, or the last item when none does |
| Weather.WeightedRandomChoice | Services/WeatherService.cs:153-167 | returns items[ChoiceIndex], which is an element of the non-empty items |
| Weather.ChoiceNeverFallsBack | Services/WeatherService.cs:155-166 | with a positive total and 0 ≤ draw < 1, some running total exceeds the target, so the items[^1] fallback is never reached |
| Weather.ToLower | Services/WeatherService.cs:143 | ASCII lower case, letter by letter |
| Weather.GenerateSimulatedWeatherData | Services/WeatherService.cs:112-151 | one record per day from fromDate to toDate: record i is the simulated day fromDate + i built from draw i |
| Weather.SimulatedDayRanges | Services/WeatherService.cs:126-144 | TempMax − TempMin = 13, temperature is the midpoint, variation in [−4, 4), temperature in [17.5, 25.5), feels-like in [temperature, temperature + 2), humidity in 30..69, Main one of the five conditions, Description its lower case |
| Weather.ConditionBands | Services/WeatherService.cs:131-133 | the condition draw selects Clear below 0.4, Partly Cloudy below 0.7, Cloudy below 0.85, Rain below 0.95, else Thunderstorm |
| Weather.SimulatedNeverHot | Services/WeatherService.cs:126-129 | every simulated temperature is below 25.5, so never above 28 |
| Weather.SimulatedDates | Services/WeatherService.cs:118-147 | empty iff fromDate > toDate; record i is dated fromDate + i; dates consecutive and distinct; the dates are exactly the days of the range |
| Weather.WeatherDictionaryCharacterized | Services/WeatherService.cs:106-110 | ToDictionary succeeds iff no two records share a day; then its keys are the records' days and each day maps to its record |
| Weather.SimulatedDictionary | Services/WeatherService.cs:109 | keying simulated output never throws, and its keys are exactly the days of the range |
| Insights.FirstMax | Services/InsightsService.cs:129 | a position of maximum consumption, the first one on ties |
| Insights.FirstMin | Services/InsightsService.cs:144 | a position of minimum consumption, the first one on ties |
| Insights.SignificantIndex | Services/InsightsService.cs:188-191 | None iff no result is flagged; else a flagged result of largest abs(deviation ?? 0), the first on ties |
| Insights.CountSeverityZero | Services/InsightsService.cs:388-389 | a severity count is 0 iff no insight has that severity |
| Insights.ConsumptionInsights | Services/InsightsService.cs:97-159 | exactly four informational insights: total (with the day count), average, peak day at the first maximum (percentage against the average), lowest day at the first minimum |
| Insights.ConsumptionExtremes | Services/InsightsService.cs:129-155 | over a consistent summary with a positive average: lowest ≤ average ≤ peak, every reading between lowest and peak, peak percentage ≥ 0, the peak's date is a reading of that consumption |
| Insights.AnomalyInsights | Services/InsightsService.cs:161-211 | count 0 gives exactly [NoAnomalies, info]; otherwise AnomalyDetected (warning iff count > 3), then a warning SignificantAnomaly for the most significant flagged result when there is one |
| Insights.SignificantAnomalyReported | Services/InsightsService.cs:187-207 | with a count that matches the flags, a non-zero count always yields the significant anomaly, and its deviation is the largest among flagged days |
| Insights.CorrelateExists | Services/InsightsService.cs:222-229 | some correlated pair satisfies a test iff some reading whose day is a weather key does |
| Insights.WeatherCorrelation | Services/InsightsService.cs:213-291 | at most two informational insights, none without a correlated day, each a WeatherImpact or a WeatherPattern |
| Insights.RainyDayInsights | Services/InsightsService.cs:265-281 | one WeatherPattern iff there is a rainy day, saying "higher" iff the change is positive |
| Insights.WeatherCorrelationParts | Services/InsightsService.cs:231-282 | WeatherImpact appears, first, iff there is a hot day of high consumption; WeatherPattern iff there is a rainy day |
| Insights.WeatherImpactCriterion | Services/InsightsService.cs:234-258 | WeatherImpact iff some reading with weather is above 28 degrees and above the overall mean consumption |
| Insights.WeatherPatternCriterion | Services/InsightsService.cs:261-282 | WeatherPattern iff some reading with weather has "rain", in any letter case, in its Main |
| Insights.WeatherImpactIsIncrease | Services/InsightsService.cs:241-244 | with a positive overall mean the reported hot-day increase is positive |
| Insights.MildWeatherHasNoImpact | Services/InsightsService.cs:234-239 | if no weather day is above 28 degrees there is no WeatherImpact |
| Insights.SimulatedWeatherHasNoImpact | Services/InsightsService.cs:235 | over keyed simulated weather the hot-day rule never fires |
| Insights.WeeksInOrder | Services/InsightsService.cs:324-326 | the two weeks together are the last 14 sorted readings (their sums add up to that total), and no reading of the previous week is dated after one of the last week |
| Insights.TrendInsights | Services/InsightsService.cs:293-348 | one ConsumptionTrend, a warning iff Increasing and strength > 5; from 14 readings a WeeklyComparison of the last 7 against the 7 before, a warning iff abs(change) > 15 |
| Insights.WeeklyComparisonBands | Services/InsightsService.cs:327-337 | with a positive previous week: "increased" iff last week > previous; a warning iff last > 115% or < 85% of previous |
| Insights.ForecastInsights | Services/InsightsService.cs:350-381 | one insight iff there are forecasts; outlook Higher iff change > 5, Lower iff change < −5, else Similar; a warning iff change > 10 |
| Insights.ForecastOutlookBands | Services/InsightsService.cs:356-371 | with a positive average: Higher iff mean forecast > 105%, Lower iff < 95%, a warning iff > 110%; every warning is Higher |
| Insights.PercentChangeBands | Services/InsightsService.cs:244 | with a positive reference, the change exceeds t% iff the value exceeds reference·(1 + t/100), and falls below −t% iff it is below reference·(1 − t/100) |
| Insights.OverallAssessment | Services/InsightsService.cs:383-412 | the first applicable rule: critical > 0; warnings > 2; Increasing with strength > 10; Decreasing; otherwise normal operation; each assessment carries its figures: the critical count, the warning count, the average daily use, or average, anomaly count and day count |
| Insights.GenerateInsights | Services/InsightsService.cs:27-95 | empty data gives exactly [NoData, warning] and "insufficient data"; otherwise the generators' insights in fixed order (weather only for a non-empty map) and their assessment; never a critical insight or a critical assessment |
| Insights.AllInsightsNoCritical | Services/InsightsService.cs:391-394 | no generator emits a critical insight, so the critical branch is unreachable |
| Insights.InsightOrder | Services/InsightsService.cs:59-74 | total, average, peak and lowest first, then the anomaly insights; the trend insights come last but the forecast one |
| Insights.ManyAnomaliesRisingTrendMonitored | Services/InsightsService.cs:180-199 | more than 3 anomalies in a consistent summary plus a trend rising above 5% give the "monitor closely" assessment |

## Left out

- HTTP, JSON and authentication are not modelled: the meter fetch, the OpenWeatherMap path, the token cache, the controllers and `Program.cs`.
- `async`/`Task`, logging and `DateTime.UtcNow` for `GeneratedAt` carry no logic and are left out.
- IEEE doubles: reals have no rounding, infinities or NaN.
- `Math.Sqrt`: the standard deviation is a parameter constrained by `IsStdDev`, as all callers take it from the population variance.
- Unguarded divisions produce ∞ or NaN in the code; the model requires a nonzero divisor instead of inventing a result. This applies to the peak percentage, the weather increase and change, the weekly change and the forecast change in `InsightsService.cs`, and to the trend strength in `ForecastingService.cs`. The conditions are `InsightDivisionsDefined`, `WeatherDivisionsDefined` and the requires of `CalculateTrend`.
- `System.Random` is replaced by its draws, passed in as `DayDraws`; `ValidDraws` states the ranges `NextDouble` and `Next(30, 70)` guarantee.
- Time of day and `Date.Date`: dates are whole days, so `fromDate.Date`, `toDate.Date` and `e.Date.Date` are the day numbers themselves.
- `DateTime` range overflow in `AddDays` (beyond year 9999) is not modelled.
- Non-ASCII case folding: `ToLower` and the `OrdinalIgnoreCase` test fold only ASCII letters.
- The swallow-all `catch` in the weather correlation (`InsightsService.cs:285-288`) is not modelled: with the divisions defined nothing in it throws.
- Insight metadata dictionaries and message text are represented by the figures and wording tags they carry, not by formatted strings.
- In-place mutation of `AnalyticsResult` objects is modelled by replacing list elements; nothing else holds a reference to them, so aliasing is not modelled.
- `CalculateStandardDeviation` returning 0 on an empty list is not modelled: it is only called on the non-empty recent window.
- The 1..30 range check on forecast days in the forecast controller is not part of this model; `ForecastDays` accepts any count and yields none for a count ≤ 0.
- Analytics.CalculateMovingAverage: requires `windowSize >= 1` on non-empty input. With a window of 0 or less, `window.Average()` at `Services/AnalyticsService.cs:81` throws `InvalidOperationException`. The exception path is not modelled, because both callers use a window of 7 (`:99` takes the default, `:136` passes it).
- Analytics.DetectAnomalies and Analytics.CalculateMovingAverageAndAnomalies: require non-empty input. On empty input, `consumptionValues.Average()` at `Services/AnalyticsService.cs:103` and `:140` throws `InvalidOperationException`. The exception path is not modelled: `CalculateMovingAverageAndAnomaliesAsync` is called only by `AnalyzeEnergyDataAsync` (`:42`), after the early return on empty data (`:27-39`), and `DetectAnomaliesAsync` has no caller in the repository.
- Weather.WeightedRandomChoice: requires `0 < |items| <= |weights|`; otherwise `weights[i]` at `Services/WeatherService.cs:161` throws `IndexOutOfRangeException` when the weights are fewer than the items, and so does `items[^1]` at `:166` on an empty array. The exception paths are not modelled, because the only caller passes five conditions with five weights (`:131-133`).
