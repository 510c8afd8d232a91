/**
 * WeatherService without the network: the weighted choice of a sky
 * condition, the simulated daily series for Johannesburg, and the keying of
 * a weather list by day.
 *
 * System.Random is replaced by the draws it would have produced, passed in
 * per simulated day in the order the generator consumes them.  Dates are day
 * numbers, as in EnergyReading; AddDays(1) is + 1.
 */
module Weather {
  import opened Numeric

  datatype WeatherData = WeatherData(
    date: int,
    temperature: real,
    feelsLike: real,
    tempMin: real,
    tempMax: real,
    humidity: int,
    description: string,
    main: string)

  /** The draws of one simulated day: the temperature variation, the condition,
      the feels-like offset (three NextDouble calls) and the humidity (Next(30, 70)). */
  datatype DayDraws = DayDraws(variation: real, condition: real, feelsLike: real, humidity: int)

  /** What System.Random guarantees about its draws. */
  predicate ValidDraws(d: DayDraws)
  {
    && 0.0 <= d.variation < 1.0
    && 0.0 <= d.condition < 1.0
    && 0.0 <= d.feelsLike < 1.0
    && 30 <= d.humidity < 70
  }

  const Conditions: seq<string> := ["Clear", "Partly Cloudy", "Cloudy", "Rain", "Thunderstorm"]
  const ConditionWeights: seq<real> := [0.4, 0.3, 0.15, 0.1, 0.05]
  const BaseTempMin: real := 15.0
  const BaseTempMax: real := 28.0

  // ------------------------------------------------------- weighted choice

  /** Running total of the first i weights exceeds target. */
  predicate Crosses(weights: seq<real>, target: real, i: int)
    requires 0 <= i < |weights|
  {
    target < Sum(weights[..i + 1])
  }

  /** The index the choice settles on when the scan starts at i: the first index from i on whose
      running total exceeds target, or the last index when none does. */
  function FirstCrossing(weights: seq<real>, count: int, target: real, i: int): (k: int)
    requires 0 < count <= |weights| && 0 <= i <= count
    ensures i <= k < count || (i == count && k == count - 1)
    ensures forall j :: i <= j < k ==> !Crosses(weights, target, j)
    ensures Crosses(weights, target, k) || (k == count - 1 && forall j :: i <= j < count ==> !Crosses(weights, target, j))
    decreases count - i
  {
    if i == count then count - 1
    else if Crosses(weights, target, i) then i
    else FirstCrossing(weights, count, target, i + 1)
  }

  /** randomValue: the draw scaled to the total weight. */
  function Target(weights: seq<real>, draw: real): real
  {
    draw * Sum(weights)
  }

  /** The item index WeightedRandomChoice returns for the draw: the smallest index whose
      running total exceeds draw * total, or the last item when there is none. */
  function ChoiceIndex(weights: seq<real>, count: int, draw: real): (k: int)
    requires 0 < count <= |weights|
    ensures 0 <= k < count
    ensures forall j :: 0 <= j < k ==> !Crosses(weights, Target(weights, draw), j)
    ensures Crosses(weights, Target(weights, draw), k)
      || (k == count - 1 && forall j :: 0 <= j < count ==> !Crosses(weights, Target(weights, draw), j))
  {
    FirstCrossing(weights, count, Target(weights, draw), 0)
  }

  /** With a positive total and a draw below 1, some running total exceeds the target, so the
      fallback to the last item is never taken. */
  lemma ChoiceNeverFallsBack(weights: seq<real>, draw: real)
    requires 0 < |weights| && Sum(weights) > 0.0 && 0.0 <= draw < 1.0
    ensures Crosses(weights, Target(weights, draw), ChoiceIndex(weights, |weights|, draw))
  {
    var n := |weights|;
    assert weights[..n] == weights;
    var total := Sum(weights);
    ProductPositive(1.0 - draw, total);
    assert Target(weights, draw) < total;
    assert Crosses(weights, Target(weights, draw), n - 1);
  }

  /** WeightedRandomChoice: scan the running total until it passes draw * total. */
  method WeightedRandomChoice<T>(items: seq<T>, weights: seq<real>, draw: real) returns (choice: T)
    requires 0 < |items| <= |weights|
    ensures choice == items[ChoiceIndex(weights, |items|, draw)]
    ensures choice in items
  {
    var totalWeight := Sum(weights);
    var randomValue := draw * totalWeight;
    assert randomValue == Target(weights, draw);
    var cumulative := 0.0;
    for i := 0 to |items|
      invariant cumulative == Sum(weights[..i])
      invariant FirstCrossing(weights, |items|, Target(weights, draw), i) == ChoiceIndex(weights, |items|, draw)
    {
      assert weights[..i + 1][..i] == weights[..i];
      cumulative := cumulative + weights[i];
      if randomValue < cumulative {
        return items[i];
      }
    }
    return items[|items| - 1];
  }

  // ------------------------------------------------------------ lower case

  function LowerChar(c: char): (r: char)
    ensures 'A' <= c <= 'Z' ==> r as int == c as int + 32
    ensures !('A' <= c <= 'Z') ==> r == c
  {
    if 'A' <= c <= 'Z' then (c as int + 32) as char else c
  }

  /** String.ToLower on ASCII letters. */
  function ToLower(s: string): (r: string)
    ensures |r| == |s| && forall i :: 0 <= i < |s| ==> r[i] == LowerChar(s[i])
  {
    seq(|s|, i requires 0 <= i < |s| => LowerChar(s[i]))
  }

  // -------------------------------------------------------- simulated days

  /** The condition drawn by WeightedRandomChoice(conditions, weights, random). */
  function ConditionOf(draw: real): string
  {
    Conditions[ChoiceIndex(ConditionWeights, |Conditions|, draw)]
  }

  /** The record the loop adds for a day and its draws. */
  function SimulatedDay(date: int, d: DayDraws): WeatherData
  {
    var tempVariation := d.variation * 8.0 - 4.0;
    var tempMin := BaseTempMin + tempVariation;
    var tempMax := BaseTempMax + tempVariation;
    var avgTemp := (tempMin + tempMax) / 2.0;
    var condition := ConditionOf(d.condition);
    WeatherData(date, avgTemp, avgTemp + d.feelsLike * 2.0, tempMin, tempMax, d.humidity, ToLower(condition), condition)
  }

  /** The days from fromDate to toDate inclusive. */
  function DayCount(fromDate: int, toDate: int): (n: nat)
    ensures n == 0 <==> fromDate > toDate
  {
    if fromDate > toDate then 0 else toDate - fromDate + 1
  }

  /** The series GenerateSimulatedWeatherData returns. */
  ghost predicate IsSimulatedSeries(weatherData: seq<WeatherData>, fromDate: int, toDate: int, draws: seq<DayDraws>)
  {
    && |weatherData| == DayCount(fromDate, toDate) <= |draws|
    && forall i :: 0 <= i < |weatherData| ==> weatherData[i] == SimulatedDay(fromDate + i, draws[i])
  }

  /** GenerateSimulatedWeatherData: one record per day from fromDate to toDate. */
  method GenerateSimulatedWeatherData(fromDate: int, toDate: int, draws: seq<DayDraws>)
    returns (weatherData: seq<WeatherData>)
    requires DayCount(fromDate, toDate) <= |draws|
    ensures IsSimulatedSeries(weatherData, fromDate, toDate, draws)
  {
    weatherData := [];
    var currentDate := fromDate;
    var baseTempMin := BaseTempMin;
    var baseTempMax := BaseTempMax;
    while currentDate <= toDate
      invariant |weatherData| == currentDate - fromDate
      invariant currentDate == fromDate || currentDate <= toDate + 1
      invariant forall i :: 0 <= i < |weatherData| ==> weatherData[i] == SimulatedDay(fromDate + i, draws[i])
      decreases toDate - currentDate
    {
      var d := draws[currentDate - fromDate];
      var tempVariation := d.variation * 8.0 - 4.0;
      var tempMin := baseTempMin + tempVariation;
      var tempMax := baseTempMax + tempVariation;
      var avgTemp := (tempMin + tempMax) / 2.0;
      var condition := WeightedRandomChoice(Conditions, ConditionWeights, d.condition);
      weatherData := weatherData + [WeatherData(currentDate, avgTemp, avgTemp + d.feelsLike * 2.0, tempMin, tempMax,
                                                d.humidity, ToLower(condition), condition)];
      currentDate := currentDate + 1;
    }
  }

  /** Each simulated record keeps the generator's ranges. */
  lemma SimulatedDayRanges(date: int, d: DayDraws)
    requires ValidDraws(d)
    ensures var w := SimulatedDay(date, d);
      && w.date == date
      && w.tempMax - w.tempMin == 13.0
      && w.temperature == (w.tempMin + w.tempMax) / 2.0
      && -4.0 <= w.tempMin - BaseTempMin < 4.0
      && 17.5 <= w.temperature < 25.5
      && w.temperature <= w.feelsLike < w.temperature + 2.0
      && 30 <= w.humidity <= 69
      && w.main in Conditions
      && w.description == ToLower(w.main)
  {
  }

  /** The draw picks each condition with the listed weights: Clear below 0.4, Partly Cloudy below
      0.7, Cloudy below 0.85, Rain below 0.95, Thunderstorm above. */
  lemma ConditionBands(draw: real)
    requires 0.0 <= draw < 1.0
    ensures draw < 0.4 ==> ConditionOf(draw) == "Clear"
    ensures 0.4 <= draw < 0.7 ==> ConditionOf(draw) == "Partly Cloudy"
    ensures 0.7 <= draw < 0.85 ==> ConditionOf(draw) == "Cloudy"
    ensures 0.85 <= draw < 0.95 ==> ConditionOf(draw) == "Rain"
    ensures 0.95 <= draw ==> ConditionOf(draw) == "Thunderstorm"
  {
    var w := ConditionWeights;
    assert Sum(w[..1]) == 0.4 by { assert w[..1][..0] == []; }
    assert Sum(w[..2]) == 0.7 by { assert w[..2][..1] == w[..1]; }
    assert Sum(w[..3]) == 0.85 by { assert w[..3][..2] == w[..2]; }
    assert Sum(w[..4]) == 0.95 by { assert w[..4][..3] == w[..3]; }
    assert Sum(w[..5]) == 1.0 by { assert w[..5][..4] == w[..4]; }
    assert w[..5] == w;
  }

  /** No simulated day is a hot day (> 28 degrees). */
  lemma SimulatedNeverHot(weatherData: seq<WeatherData>, fromDate: int, toDate: int, draws: seq<DayDraws>)
    requires IsSimulatedSeries(weatherData, fromDate, toDate, draws)
    requires forall i :: 0 <= i < |draws| ==> ValidDraws(draws[i])
    ensures forall i :: 0 <= i < |weatherData| ==> weatherData[i].temperature < 25.5
  {
    forall i | 0 <= i < |weatherData|
      ensures weatherData[i].temperature < 25.5
    {
      SimulatedDayRanges(fromDate + i, draws[i]);
    }
  }

  /** The simulated dates are fromDate, fromDate + 1, ..., toDate: consecutive, distinct, covering
      every day of the range, and none at all when fromDate > toDate. */
  lemma SimulatedDates(weatherData: seq<WeatherData>, fromDate: int, toDate: int, draws: seq<DayDraws>)
    requires IsSimulatedSeries(weatherData, fromDate, toDate, draws)
    ensures |weatherData| == 0 <==> fromDate > toDate
    ensures forall i :: 0 <= i < |weatherData| ==> weatherData[i].date == fromDate + i
    ensures forall i :: 0 <= i < |weatherData| - 1 ==> weatherData[i + 1].date == weatherData[i].date + 1
    ensures DistinctDates(weatherData)
    ensures forall day :: day in Dates(weatherData) <==> fromDate <= day <= toDate
  {
    forall day | fromDate <= day <= toDate
      ensures day in Dates(weatherData)
    {
      assert weatherData[day - fromDate].date == day;
    }
  }

  // ------------------------------------------------------------ dictionary

  function Dates(ws: seq<WeatherData>): set<int>
  {
    set i | 0 <= i < |ws| :: ws[i].date
  }

  predicate DistinctDates(ws: seq<WeatherData>)
  {
    forall i, j :: 0 <= i < j < |ws| ==> ws[i].date != ws[j].date
  }

  /** ToDictionary(w => w.Date.Date): the records are added in order, and adding a day that is
      already a key throws, which is the None. */
  function WeatherDictionary(ws: seq<WeatherData>): Option<map<int, WeatherData>>
  {
    if |ws| == 0 then Some(map[])
    else
      match WeatherDictionary(ws[..|ws| - 1])
      case None => None
      case Some(m) =>
        var last := ws[|ws| - 1];
        if last.date in m then None else Some(m[last.date := last])
  }

  /** The dictionary exists exactly when no two records share a day; then its keys are the days
      of the records and each day maps to its record. */
  lemma {:induction false} WeatherDictionaryCharacterized(ws: seq<WeatherData>)
    ensures WeatherDictionary(ws).Some? <==> DistinctDates(ws)
    ensures WeatherDictionary(ws).Some? ==> WeatherDictionary(ws).value.Keys == Dates(ws)
    ensures WeatherDictionary(ws).Some? ==> forall i :: 0 <= i < |ws| ==>
      ws[i].date in WeatherDictionary(ws).value && WeatherDictionary(ws).value[ws[i].date] == ws[i]
  {
    if |ws| > 0 {
      var front, last := ws[..|ws| - 1], ws[|ws| - 1];
      assert ws == front + [last];
      WeatherDictionaryCharacterized(front);
      match WeatherDictionary(front)
      case None =>
        NotDistinctExtended(front, last);
      case Some(m) =>
        if last.date in m {
          DuplicateExtended(front, last);
        } else {
          DistinctExtended(front, last);
          DatesExtended(front, last);
        }
    }
  }

  lemma DuplicateExtended(front: seq<WeatherData>, last: WeatherData)
    requires last.date in Dates(front)
    ensures !DistinctDates(front + [last])
  {
    var i :| 0 <= i < |front| && front[i].date == last.date;
    var ws := front + [last];
    assert ws[i] == front[i] && ws[|front|] == last;
    assert ws[i].date == ws[|front|].date;
  }

  lemma DatesExtended(front: seq<WeatherData>, last: WeatherData)
    ensures Dates(front + [last]) == Dates(front) + {last.date}
  {
    var ws := front + [last];
    assert ws[|front|] == last;
    forall day | day in Dates(front)
      ensures day in Dates(ws)
    {
      var i :| 0 <= i < |front| && front[i].date == day;
      assert ws[i] == front[i];
    }
  }

  lemma NotDistinctExtended(front: seq<WeatherData>, last: WeatherData)
    requires !DistinctDates(front)
    ensures !DistinctDates(front + [last])
  {
    var i, j :| 0 <= i < j < |front| && front[i].date == front[j].date;
    assert (front + [last])[i] == front[i] && (front + [last])[j] == front[j];
  }

  lemma DistinctExtended(front: seq<WeatherData>, last: WeatherData)
    requires DistinctDates(front)
    requires forall i :: 0 <= i < |front| ==> front[i].date != last.date
    ensures DistinctDates(front + [last])
  {
  }

  /** Keying a simulated series never throws, and its keys are exactly the days of the range. */
  lemma SimulatedDictionary(weatherData: seq<WeatherData>, fromDate: int, toDate: int, draws: seq<DayDraws>)
    requires IsSimulatedSeries(weatherData, fromDate, toDate, draws)
    ensures WeatherDictionary(weatherData).Some?
    ensures forall day :: day in WeatherDictionary(weatherData).value <==> fromDate <= day <= toDate
  {
    SimulatedDates(weatherData, fromDate, toDate, draws);
    WeatherDictionaryCharacterized(weatherData);
  }
}
