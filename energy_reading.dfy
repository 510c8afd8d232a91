/**
 * One record of the metering platform (EnergyDataResponse) and the two
 * properties derived from it: the calendar day of the reading and its
 * consumption in kWh.  Dates are day numbers counted from 0001-01-01, the
 * day count of a .NET DateTime; the DateTime constructor throws on a
 * year, month or day out of range, which is the None of Date.
 */
module EnergyReading {
  import opened Numeric

  datatype EnergyDataResponse = EnergyDataResponse(
    sensorId: string,
    year: int,
    month: int,
    day: int,
    count: int,
    sum: real,
    min: real,
    max: real)

  /** A reading after normalisation: its day number and its kWh figure. */
  datatype DailyReading = DailyReading(date: int, kwh: real)

  // ---------------------------------------------------------------- calendar

  predicate IsLeapYear(year: int)
  {
    year % 4 == 0 && (year % 100 != 0 || year % 400 == 0)
  }

  function DaysInYear(year: int): int
  {
    if IsLeapYear(year) then 366 else 365
  }

  function DaysInMonth(year: int, month: int): int
    requires 1 <= month <= 12
  {
    if month == 2 then (if IsLeapYear(year) then 29 else 28)
    else if month == 4 || month == 6 || month == 9 || month == 11 then 30
    else 31
  }

  /** Days of the year that precede the first of the month. */
  function DaysBeforeMonth(year: int, month: int): (r: int)
    requires 1 <= month <= 12
    ensures 0 <= r
  {
    if month == 1 then 0 else DaysBeforeMonth(year, month - 1) + DaysInMonth(year, month - 1)
  }

  /** Days from 0001-01-01 to the first of January of the year. */
  function DaysBeforeYear(year: int): int
    requires year >= 1
  {
    var y := year - 1;
    365 * y + y / 4 - y / 100 + y / 400
  }

  /** The arguments the DateTime(year, month, day) constructor accepts. */
  predicate ValidCivilDate(year: int, month: int, day: int)
  {
    1 <= year <= 9999 && 1 <= month <= 12 && 1 <= day <= DaysInMonth(year, month)
  }

  function DayNumber(year: int, month: int, day: int): int
    requires ValidCivilDate(year, month, day)
  {
    DaysBeforeYear(year) + DaysBeforeMonth(year, month) + day - 1
  }

  /** Lexicographic order of (year, month, day). */
  predicate CivilBefore(y1: int, m1: int, d1: int, y2: int, m2: int, d2: int)
  {
    y1 < y2 || (y1 == y2 && (m1 < m2 || (m1 == m2 && d1 < d2)))
  }

  lemma YearStep(year: int)
    requires year >= 1
    ensures DaysBeforeYear(year + 1) == DaysBeforeYear(year) + DaysInYear(year)
  {
    var y := year - 1;
    DivStep4(y);
    DivStep100(y);
    DivStep400(y);
    DivisibilityChain(year);
    var i4 := if year % 4 == 0 then 1 else 0;
    var i100 := if year % 100 == 0 then 1 else 0;
    var i400 := if year % 400 == 0 then 1 else 0;
    assert year / 4 == y / 4 + i4 && year / 100 == y / 100 + i100 && year / 400 == y / 400 + i400;
    assert DaysBeforeYear(year + 1) - DaysBeforeYear(year) == 365 + i4 - i100 + i400;
    assert DaysInYear(year) == 365 + i4 - i100 + i400;
  }

  /** A multiple of 400 is a multiple of 100, and a multiple of 100 a multiple of 4. */
  lemma DivisibilityChain(n: int)
    ensures n % 400 == 0 ==> n % 100 == 0
    ensures n % 100 == 0 ==> n % 4 == 0
  {
    if n % 400 == 0 {
      var q := n / 400;
      assert n == 100 * (4 * q);
      HundredMultiple(4 * q);
    }
    if n % 100 == 0 {
      var q := n / 100;
      assert n == 4 * (25 * q);
      FourMultiple(25 * q);
    }
  }

  lemma HundredMultiple(m: int)
    ensures (100 * m) % 100 == 0
  {
  }

  lemma FourMultiple(m: int)
    ensures (4 * m) % 4 == 0
  {
  }

  lemma DivStep4(y: int)
    ensures (y + 1) / 4 == y / 4 + (if (y + 1) % 4 == 0 then 1 else 0)
  {
  }

  lemma DivStep100(y: int)
    ensures (y + 1) / 100 == y / 100 + (if (y + 1) % 100 == 0 then 1 else 0)
  {
  }

  lemma DivStep400(y: int)
    ensures (y + 1) / 400 == y / 400 + (if (y + 1) % 400 == 0 then 1 else 0)
  {
  }

  lemma {:induction false} DaysBeforeYearMonotone(a: int, b: int)
    requires 1 <= a <= b
    ensures DaysBeforeYear(a) + 365 * (b - a) <= DaysBeforeYear(b)
    decreases b - a
  {
    if a < b {
      DaysBeforeYearMonotone(a, b - 1);
      YearStep(b - 1);
    }
  }

  lemma {:induction false} DaysBeforeMonthMonotone(year: int, a: int, b: int)
    requires 1 <= a < b <= 12
    ensures DaysBeforeMonth(year, a) + DaysInMonth(year, a) <= DaysBeforeMonth(year, b)
    decreases b - a
  {
    if a + 1 < b {
      DaysBeforeMonthMonotone(year, a, b - 1);
    }
  }

  lemma DayOfYearBound(year: int, month: int, day: int)
    requires ValidCivilDate(year, month, day)
    ensures DaysBeforeMonth(year, month) + day <= DaysInYear(year)
  {
    if month < 12 {
      DaysBeforeMonthMonotone(year, month, 12);
    }
    DaysBeforeDecember(year);
  }

  lemma DaysBeforeDecember(year: int)
    ensures DaysBeforeMonth(year, 12) + 31 == DaysInYear(year)
  {
    var feb := if IsLeapYear(year) then 29 else 28;
    assert DaysBeforeMonth(year, 2) == 31;
    assert DaysBeforeMonth(year, 3) == 31 + feb;
    assert DaysBeforeMonth(year, 4) == 62 + feb;
    assert DaysBeforeMonth(year, 5) == 92 + feb;
    assert DaysBeforeMonth(year, 6) == 123 + feb;
    assert DaysBeforeMonth(year, 7) == 153 + feb;
    assert DaysBeforeMonth(year, 8) == 184 + feb;
    assert DaysBeforeMonth(year, 9) == 215 + feb;
    assert DaysBeforeMonth(year, 10) == 245 + feb;
    assert DaysBeforeMonth(year, 11) == 276 + feb;
  }

  /** Day numbers follow calendar order, so distinct valid dates get distinct day numbers. */
  lemma DayNumberOrder(y1: int, m1: int, d1: int, y2: int, m2: int, d2: int)
    requires ValidCivilDate(y1, m1, d1) && ValidCivilDate(y2, m2, d2)
    requires CivilBefore(y1, m1, d1, y2, m2, d2)
    ensures DayNumber(y1, m1, d1) < DayNumber(y2, m2, d2)
  {
    if y1 < y2 {
      DayOfYearBound(y1, m1, d1);
      YearStep(y1);
      DaysBeforeYearMonotone(y1 + 1, y2);
    } else if m1 < m2 {
      DaysBeforeMonthMonotone(y1, m1, m2);
    }
  }

  lemma DayNumberInjective(y1: int, m1: int, d1: int, y2: int, m2: int, d2: int)
    requires ValidCivilDate(y1, m1, d1) && ValidCivilDate(y2, m2, d2)
    ensures DayNumber(y1, m1, d1) == DayNumber(y2, m2, d2) <==> (y1 == y2 && m1 == m2 && d1 == d2)
  {
    if CivilBefore(y1, m1, d1, y2, m2, d2) {
      DayNumberOrder(y1, m1, d1, y2, m2, d2);
    } else if CivilBefore(y2, m2, d2, y1, m1, d1) {
      DayNumberOrder(y2, m2, d2, y1, m1, d1);
    }
  }

  // ------------------------------------------------------- derived properties

  /** The Date property: new DateTime(Year, Month, Day), None where the constructor throws. */
  function Date(r: EnergyDataResponse): (d: Option<int>)
    ensures d.Some? <==> ValidCivilDate(r.year, r.month, r.day)
    ensures d.Some? ==> d.value == DayNumber(r.year, r.month, r.day)
  {
    if ValidCivilDate(r.year, r.month, r.day) then Some(DayNumber(r.year, r.month, r.day)) else None
  }

  /** The KwhConsumption property: the day's meter advance, Wh converted to kWh. */
  function KwhConsumption(r: EnergyDataResponse): (kwh: real)
    ensures kwh * 1000.0 == r.max - r.min
  {
    (r.max - r.min) / 1000.0
  }

  lemma KwhConsumptionSign(r: EnergyDataResponse)
    ensures KwhConsumption(r) >= 0.0 <==> r.max >= r.min
    ensures KwhConsumption(r) == 0.0 <==> r.max == r.min
  {
  }

  lemma KwhConsumptionIgnoresAggregates(a: EnergyDataResponse, b: EnergyDataResponse)
    requires a.min == b.min && a.max == b.max
    ensures KwhConsumption(a) == KwhConsumption(b)
  {
  }

  /** Records on the same calendar day have the same Date, and records on different days different ones. */
  lemma DateDeterminedByDay(a: EnergyDataResponse, b: EnergyDataResponse)
    requires Date(a).Some? && Date(b).Some?
    ensures Date(a) == Date(b) <==> (a.year == b.year && a.month == b.month && a.day == b.day)
  {
    DayNumberInjective(a.year, a.month, a.day, b.year, b.month, b.day);
  }

  // ---------------------------------------------------------- normalisation

  /** The reading a record stands for once Date and KwhConsumption are evaluated. */
  function Normalize(raw: seq<EnergyDataResponse>): (r: Option<seq<DailyReading>>)
    ensures r.Some? <==> forall i :: 0 <= i < |raw| ==> Date(raw[i]).Some?
    ensures r.Some? ==> |r.value| == |raw|
    ensures r.Some? ==> forall i :: 0 <= i < |raw| ==>
      r.value[i] == DailyReading(Date(raw[i]).value, KwhConsumption(raw[i]))
  {
    if |raw| == 0 then Some([])
    else
      match Date(raw[0])
      case None => None
      case Some(d) =>
        match Normalize(raw[1..])
        case None => None
        case Some(rest) => Some([DailyReading(d, KwhConsumption(raw[0]))] + rest)
  }

  /** The consumption column of a series. */
  function Kwhs(s: seq<DailyReading>): (k: seq<real>)
    ensures |k| == |s| && forall i :: 0 <= i < |s| ==> k[i] == s[i].kwh
  {
    seq(|s|, i requires 0 <= i < |s| => s[i].kwh)
  }

  lemma KwhsSlice(s: seq<DailyReading>, lo: int, hi: int)
    requires 0 <= lo <= hi <= |s|
    ensures Kwhs(s[lo..hi]) == Kwhs(s)[lo..hi]
  {
  }
}
