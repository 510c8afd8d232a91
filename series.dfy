/**
 * Chronological ordering of a series, the `OrderBy(d => d.Date)` that the
 * analytics, forecasting and insight services apply before they look at
 * positions.  LINQ's OrderBy is a stable sort: readings on the same day keep
 * the order they arrived in.  It is modelled as an insertion sort that puts
 * each reading after every earlier one whose date is not later.
 */
module Series {
  import opened EnergyReading

  predicate SortedByDate(s: seq<DailyReading>)
  {
    forall i, j :: 0 <= i < j < |s| ==> s[i].date <= s[j].date
  }

  /** The readings of s dated d, in the order of s. */
  function OnDate(s: seq<DailyReading>, d: int): seq<DailyReading>
  {
    if |s| == 0 then []
    else OnDate(s[..|s| - 1], d) + (if s[|s| - 1].date == d then [s[|s| - 1]] else [])
  }

  /** Insert x behind every reading of t whose date is not after x's. */
  function InsertByDate(t: seq<DailyReading>, x: DailyReading): (r: seq<DailyReading>)
    ensures |r| == |t| + 1
    ensures multiset(r) == multiset(t) + multiset{x}
  {
    if |t| == 0 then [x]
    else if t[|t| - 1].date <= x.date then t + [x]
    else
      assert t == t[..|t| - 1] + [t[|t| - 1]];
      InsertByDate(t[..|t| - 1], x) + [t[|t| - 1]]
  }

  /** Every reading of InsertByDate(t, x) is x or a reading of t. */
  lemma InsertByDateMembers(t: seq<DailyReading>, x: DailyReading)
    ensures forall e :: e in InsertByDate(t, x) ==> e == x || e in t
  {
    var r := InsertByDate(t, x);
    forall e | e in r
      ensures e == x || e in t
    {
      assert e in multiset(r);
    }
  }

  /** A sorted series stays sorted when a reading no earlier than all of it is appended. */
  lemma AppendSorted(s: seq<DailyReading>, y: DailyReading)
    requires SortedByDate(s)
    requires forall e :: e in s ==> e.date <= y.date
    ensures SortedByDate(s + [y])
  {
    var r := s + [y];
    forall i, j | 0 <= i < j < |r|
      ensures r[i].date <= r[j].date
    {
      assert r[i] == s[i];
      if j == |s| {
        assert s[i] in s;
      } else {
        assert r[j] == s[j];
      }
    }
  }

  lemma {:induction false} InsertByDateSorted(t: seq<DailyReading>, x: DailyReading)
    requires SortedByDate(t)
    ensures SortedByDate(InsertByDate(t, x))
  {
    if |t| > 0 && t[|t| - 1].date > x.date {
      var last := t[|t| - 1];
      var front := t[..|t| - 1];
      InsertByDateSorted(front, x);
      InsertByDateMembers(front, x);
      forall e | e in front
        ensures e.date <= last.date
      {
        var k :| 0 <= k < |front| && front[k] == e;
        assert t[k] == e;
      }
      AppendSorted(InsertByDate(front, x), last);
    }
  }

  /** OrderBy(d => d.Date). */
  function SortByDate(s: seq<DailyReading>): (r: seq<DailyReading>)
    ensures |r| == |s|
    ensures SortedByDate(r)
    ensures multiset(r) == multiset(s)
  {
    if |s| == 0 then []
    else
      assert s == s[..|s| - 1] + [s[|s| - 1]];
      InsertByDateSorted(SortByDate(s[..|s| - 1]), s[|s| - 1]);
      InsertByDate(SortByDate(s[..|s| - 1]), s[|s| - 1])
  }

  lemma {:induction false} OnDateConcat(a: seq<DailyReading>, b: seq<DailyReading>, d: int)
    ensures OnDate(a + b, d) == OnDate(a, d) + OnDate(b, d)
  {
    if |b| == 0 {
      assert a + b == a;
    } else {
      assert (a + b)[..|a + b| - 1] == a + b[..|b| - 1];
      OnDateConcat(a, b[..|b| - 1], d);
    }
  }

  lemma OnDateSingle(x: DailyReading, d: int)
    ensures OnDate([x], d) == (if x.date == d then [x] else [])
  {
    assert [x][..0] == [];
  }

  lemma {:induction false} InsertByDateOnDate(t: seq<DailyReading>, x: DailyReading, d: int)
    requires SortedByDate(t)
    ensures OnDate(InsertByDate(t, x), d) == OnDate(t, d) + (if x.date == d then [x] else [])
  {
    OnDateSingle(x, d);
    if |t| == 0 {
    } else if t[|t| - 1].date <= x.date {
      OnDateConcat(t, [x], d);
    } else {
      var last := t[|t| - 1];
      var front := t[..|t| - 1];
      InsertByDateOnDate(front, x, d);
      InsertBeforeLastOnDate(t, x, d);
    }
  }

  /** The case where x goes before the last reading of t, given the claim for the front. */
  lemma InsertBeforeLastOnDate(t: seq<DailyReading>, x: DailyReading, d: int)
    requires |t| > 0 && t[|t| - 1].date > x.date
    requires OnDate(InsertByDate(t[..|t| - 1], x), d) == OnDate(t[..|t| - 1], d) + (if x.date == d then [x] else [])
    ensures OnDate(InsertByDate(t, x), d) == OnDate(t, d) + (if x.date == d then [x] else [])
  {
    var last := t[|t| - 1];
    var front := t[..|t| - 1];
    var ins := InsertByDate(front, x);
    var a := OnDate(front, d);
    var xs := if x.date == d then [x] else [];
    var ls := if last.date == d then [last] else [];
    assert InsertByDate(t, x) == ins + [last];
    OnDateConcat(ins, [last], d);
    OnDateSingle(last, d);
    assert OnDate(t, d) == a + ls;
    SwapAroundEmpty(a, xs, ls);
  }

  lemma SwapAroundEmpty<T>(a: seq<T>, xs: seq<T>, ys: seq<T>)
    requires xs == [] || ys == []
    ensures (a + xs) + ys == (a + ys) + xs
  {
    if xs == [] {
      assert (a + xs) + ys == a + ys;
      assert (a + ys) + xs == a + ys;
    } else {
      assert (a + xs) + ys == a + xs;
      assert (a + ys) + xs == a + xs;
    }
  }

  /** The sort is stable: on each date it keeps the input order. */
  lemma {:induction false} SortByDateStable(s: seq<DailyReading>, d: int)
    ensures OnDate(SortByDate(s), d) == OnDate(s, d)
  {
    if |s| > 0 {
      SortByDateStable(s[..|s| - 1], d);
      InsertByDateOnDate(SortByDate(s[..|s| - 1]), s[|s| - 1], d);
    }
  }

  /** An already sorted series is left as it is. */
  lemma FrontSorted(s: seq<DailyReading>)
    requires |s| > 0 && SortedByDate(s)
    ensures SortedByDate(s[..|s| - 1])
    ensures |s| > 1 ==> s[|s| - 2].date <= s[|s| - 1].date
  {
  }

  lemma {:induction false} SortByDateSorted(s: seq<DailyReading>)
    requires SortedByDate(s)
    ensures SortByDate(s) == s
  {
    if |s| > 0 {
      FrontSorted(s);
      SortByDateSorted(s[..|s| - 1]);
      assert s == s[..|s| - 1] + [s[|s| - 1]];
    }
  }
}
