/** frontend/src/hooks/useDashboardStats.ts: the activity calendar's data, one
    entry for each day of the current year, filled from the server's per-day
    records, with a one-entry fallback on error. The year's days, which the
    hook gets from date-fns, are built here from the Gregorian calendar. */
module UseDashboardStats {
  import opened Common
  import opened WorkLogModel

  /** `{ date, count, level }`, both as the server sends it and as the calendar reads it. */
  datatype StatItem = StatItem(date: string, count: int, level: int)

  // ---------------------------------------------------------------------------
  // The days of a year
  // ---------------------------------------------------------------------------

  /** Years with four-digit "yyyy" texts. */
  type Year = y: nat | y < 10000

  predicate Leap(y: Year) {
    y % 4 == 0 && (y % 100 != 0 || y % 400 == 0)
  }

  function MonthLength(y: Year, m: nat): nat {
    if m == 2 then (if Leap(y) then 29 else 28)
    else if m == 4 || m == 6 || m == 9 || m == 11 then 30
    else 31
  }

  /** Day `d` lies in month `m` of year `y`. */
  predicate InMonth(y: Year, m: nat, d: Day) {
    y * 10000 + m * 100 + 1 <= d <= y * 10000 + m * 100 + MonthLength(y, m)
  }

  function MonthDays(y: Year, m: nat): (r: seq<Day>)
    requires 1 <= m <= 12
    ensures |r| == MonthLength(y, m)
    ensures forall i :: 0 <= i < |r| ==> r[i] == y * 10000 + m * 100 + i + 1
  {
    seq(MonthLength(y, m), i requires 0 <= i < MonthLength(y, m) => (y * 10000 + m * 100 + i + 1) as Day)
  }

  /** The days of months m..12, in order. */
  function DaysFrom(y: Year, m: nat): seq<Day>
    requires 1 <= m <= 13
    decreases 13 - m
  {
    if m == 13 then [] else MonthDays(y, m) + DaysFrom(y, m + 1)
  }

  /** `eachDayOfInterval` from January 1 to December 31. */
  function YearDays(y: Year): seq<Day> {
    DaysFrom(y, 1)
  }

  /** The same days as "yyyy-MM-dd" texts. */
  function YearDayTexts(y: Year): (r: seq<string>)
    ensures |r| == |YearDays(y)| && forall i :: 0 <= i < |r| ==> r[i] == FormatDay(YearDays(y)[i])
  {
    seq(|YearDays(y)|, i requires 0 <= i < |YearDays(y)| => FormatDay(YearDays(y)[i]))
  }

  lemma {:induction false} DaysFromSorted(y: Year, m: nat)
    requires 1 <= m <= 13
    ensures forall i, j :: 0 <= i < j < |DaysFrom(y, m)| ==> DaysFrom(y, m)[i] < DaysFrom(y, m)[j]
    ensures forall i :: 0 <= i < |DaysFrom(y, m)| ==> y * 10000 + m * 100 < DaysFrom(y, m)[i]
    decreases 13 - m
  {
    if m < 13 {
      DaysFromSorted(y, m + 1);
      var a := MonthDays(y, m);
      var b := DaysFrom(y, m + 1);
      var r := a + b;
      assert forall i :: 0 <= i < |a| ==> y * 10000 + m * 100 < a[i] < y * 10000 + (m + 1) * 100;
      forall i, j | 0 <= i < j < |r| ensures r[i] < r[j] {
        if j < |a| {
          assert r[i] == a[i] && r[j] == a[j];
        } else if i < |a| {
          assert r[i] == a[i] && r[j] == b[j - |a|];
          assert y * 10000 + (m + 1) * 100 < b[j - |a|];
          assert a[i] < y * 10000 + (m + 1) * 100;
        } else {
          assert r[i] == b[i - |a|] && r[j] == b[j - |a|];
        }
      }
      forall i | 0 <= i < |r| ensures y * 10000 + m * 100 < r[i] {
        if i >= |a| {
          assert r[i] == b[i - |a|];
        }
      }
    }
  }

  lemma {:induction false} DaysFromMembers(y: Year, m: nat)
    requires 1 <= m <= 13
    ensures forall d: Day :: d in DaysFrom(y, m) <==> exists k :: m <= k <= 12 && InMonth(y, k, d)
    decreases 13 - m
  {
    if m < 13 {
      DaysFromMembers(y, m + 1);
      var a := MonthDays(y, m);
      var b := DaysFrom(y, m + 1);
      forall d: Day ensures d in a + b <==> exists k :: m <= k <= 12 && InMonth(y, k, d) {
        if d in a {
          var i :| 0 <= i < |a| && a[i] == d;
          assert InMonth(y, m, d);
        }
        if InMonth(y, m, d) {
          var i := d - (y * 10000 + m * 100 + 1);
          assert a[i] == d;
        }
      }
    }
  }

  /** The year's days are exactly its calendar days, each once, in increasing
      order, from January 1 to December 31: 366 of them in a leap year, else 365. */
  lemma YearDaysSpec(y: Year)
    ensures var r := YearDays(y);
      |r| == (if Leap(y) then 366 else 365) &&
      r[0] == y * 10000 + 101 && r[|r| - 1] == y * 10000 + 1231 &&
      (forall i, j :: 0 <= i < j < |r| ==> r[i] < r[j]) &&
      (forall d: Day :: d in r <==> exists k :: 1 <= k <= 12 && InMonth(y, k, d))
  {
    DaysFromSorted(y, 1);
    DaysFromMembers(y, 1);
    var r := YearDays(y);
    assert DaysFrom(y, 13) == [];
    assert DaysFrom(y, 12) == MonthDays(y, 12);
    assert |DaysFrom(y, 11)| == 30 + 31;
    assert |DaysFrom(y, 10)| == 31 + 61;
    assert |DaysFrom(y, 9)| == 30 + 92;
    assert |DaysFrom(y, 8)| == 31 + 122;
    assert |DaysFrom(y, 7)| == 31 + 153;
    assert |DaysFrom(y, 6)| == 30 + 184;
    assert |DaysFrom(y, 5)| == 31 + 214;
    assert |DaysFrom(y, 4)| == 30 + 245;
    assert |DaysFrom(y, 3)| == 31 + 275;
    assert |DaysFrom(y, 2)| == MonthLength(y, 2) + 306;
    assert |r| == 31 + MonthLength(y, 2) + 306;
    assert r[0] == MonthDays(y, 1)[0];
    LastDay(y, 1);
  }

  lemma {:induction false} LastDay(y: Year, m: nat)
    requires 1 <= m <= 12
    ensures |DaysFrom(y, m)| > 0 && DaysFrom(y, m)[|DaysFrom(y, m)| - 1] == y * 10000 + 1231
    decreases 13 - m
  {
    if m == 12 {
      assert DaysFrom(y, 13) == [];
      assert DaysFrom(y, 12) == MonthDays(y, 12);
    } else {
      LastDay(y, m + 1);
    }
  }

  // ---------------------------------------------------------------------------
  // The fill
  // ---------------------------------------------------------------------------

  /** `days.map(day => data.find(d => d.date === dateStr) ...)`. */
  function FillYear(days: seq<string>, data: seq<StatItem>): seq<StatItem>
  {
    seq(|days|, i requires 0 <= i < |days| =>
      match FirstIndex(data, (d: StatItem) => d.date == days[i])
      case Some(k) => StatItem(days[i], data[k].count, data[k].level)
      case None => StatItem(days[i], 0, 0))
  }

  /** One entry per day, in the days' order; each takes count and level from the
      first record of its date, or 0/0 when there is none. */
  lemma FillYearSpec(days: seq<string>, data: seq<StatItem>)
    ensures var r := FillYear(days, data);
      |r| == |days| &&
      (forall i :: 0 <= i < |r| ==> r[i].date == days[i]) &&
      (forall i, k ::
         (0 <= i < |r| && 0 <= k < |data| && data[k].date == days[i] &&
          forall j :: 0 <= j < k ==> data[j].date != days[i]) ==>
           r[i].count == data[k].count && r[i].level == data[k].level) &&
      (forall i :: 0 <= i < |r| && (forall k :: 0 <= k < |data| ==> data[k].date != days[i]) ==>
         r[i].count == 0 && r[i].level == 0)
  {
    var r := FillYear(days, data);
    forall i, k | 0 <= i < |r| && 0 <= k < |data| && data[k].date == days[i] &&
                (forall j :: 0 <= j < k ==> data[j].date != days[i])
      ensures r[i].count == data[k].count && r[i].level == data[k].level
    {
      var f := FirstIndex(data, (d: StatItem) => d.date == days[i]);
      assert f.Some?;
      assert f.value == k;
    }
  }

  /** A record dated outside the given days leaves no entry. */
  lemma FillYearIgnoresOtherDates(days: seq<string>, data: seq<StatItem>, x: StatItem)
    requires x in data && x.date !in days
    ensures forall i :: 0 <= i < |FillYear(days, data)| ==> FillYear(days, data)[i].date != x.date
  {
  }

  /** Each text of the year reads back as its day. */
  lemma YearTextsReadBack(y: Year)
    ensures forall i :: 0 <= i < |YearDayTexts(y)| ==> ParseDay(YearDayTexts(y)[i]) == Some(YearDays(y)[i])
  {
    forall i | 0 <= i < |YearDayTexts(y)| ensures ParseDay(YearDayTexts(y)[i]) == Some(YearDays(y)[i]) {
      DayRoundTrip(YearDays(y)[i]);
    }
  }

  /** The filled year, read back as days, runs from January 1 to December 31
      in strictly increasing order. */
  lemma FilledYearInOrder(y: Year, data: seq<StatItem>)
    ensures var r := FillYear(YearDayTexts(y), data);
      |r| == (if Leap(y) then 366 else 365) &&
      (forall i :: 0 <= i < |r| ==> ParseDay(r[i].date) == Some(YearDays(y)[i])) &&
      ParseDay(r[0].date) == Some(y * 10000 + 101) && ParseDay(r[|r| - 1].date) == Some(y * 10000 + 1231) &&
      forall i, j :: 0 <= i < j < |r| ==> YearDays(y)[i] < YearDays(y)[j]
  {
    YearDaysSpec(y);
    YearTextsReadBack(y);
    var days := YearDayTexts(y);
    FillYearSpec(days, data);
    var r := FillYear(days, data);
    forall i | 0 <= i < |r| ensures ParseDay(r[i].date) == Some(YearDays(y)[i]) {
      assert r[i].date == days[i];
    }
  }

  class DashboardStats {
    var stats: seq<StatItem>
    var loading: bool

    /** `useState([])` and `useState(true)`. */
    constructor ()
      ensures stats == [] && loading
    {
      stats := [];
      loading := true;
    }

    /** The end of `fetchStats`: the filled year on success, one zero entry for
        today on error, and `loading` off either way. */
    method FetchDone(reply: Option<seq<StatItem>>, year: Year, today: string)
      modifies this
      ensures !loading
      ensures reply.Some? ==> stats == FillYear(YearDayTexts(year), reply.value)
      ensures reply.None? ==> stats == [StatItem(today, 0, 0)]
    {
      if reply.Some? {
        stats := FillYear(YearDayTexts(year), reply.value);
      } else {
        stats := [StatItem(today, 0, 0)];
      }
      loading := false;
    }
  }
}
