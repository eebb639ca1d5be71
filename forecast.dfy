/**
 * Forecast day selection: from the three-hourly forecast series the app keeps the
 * entries whose `dt_txt` timestamp mentions the midday slot, and shows at most
 * the first five of them (`list.filter(...)` followed by `slice(0, 5)`).
 */
module ForecastSelection {
  import opened Strings

  /** One entry of the forecast series: `dt`, `dt_txt`, `main.temp`, `weather[0].main`. */
  datatype ForecastItem = ForecastItem(dt: int, dtTxt: string, temp: real, condition: string)

  /** The time-of-day marker the filter searches for. */
  const MiddaySlot: string := "12:00:00"

  /** How many days the forecast strip shows at most. */
  const ForecastDays: nat := 5

  /** The filter's test: `item.dt_txt.includes('12:00:00')`, a substring test. */
  predicate IsMidday(item: ForecastItem) {
    Includes(item.dtTxt, MiddaySlot)
  }

  /** `list.filter(IsMidday)`: the midday entries, in their original order. */
  function MiddayEntries(list: seq<ForecastItem>): (r: seq<ForecastItem>)
    ensures |r| <= |list|
    ensures forall x :: x in r ==> x in list && IsMidday(x)
  {
    if list == [] then []
    else (if IsMidday(list[0]) then [list[0]] else []) + MiddayEntries(list[1..])
  }

  /** `filter(...).slice(0, 5)`: the forecast the app stores. */
  function DailyForecast(list: seq<ForecastItem>): (r: seq<ForecastItem>)
    ensures |r| <= ForecastDays
    ensures forall x :: x in r ==> x in list && IsMidday(x)
  {
    var midday := MiddayEntries(list);
    if |midday| <= ForecastDays then midday else midday[..ForecastDays]
  }

  /** The filter drops no midday entry: membership in the result is exactly "in the list and at midday". */
  lemma {:induction false} MiddayEntriesComplete(list: seq<ForecastItem>, x: ForecastItem)
    ensures x in MiddayEntries(list) <==> x in list && IsMidday(x)
  {
    if list != [] {
      MiddayEntriesComplete(list[1..], x);
      assert list == [list[0]] + list[1..];
    }
  }

  /** The filter keeps order: filtering a concatenation is concatenating the filtered parts. */
  lemma {:induction false} MiddayEntriesAppend(a: seq<ForecastItem>, b: seq<ForecastItem>)
    ensures MiddayEntries(a + b) == MiddayEntries(a) + MiddayEntries(b)
  {
    if a == [] {
      assert a + b == b;
    } else {
      assert (a + b)[1..] == a[1..] + b;
      MiddayEntriesAppend(a[1..], b);
    }
  }

  /** The first `n` midday entries are exactly the midday entries of some prefix of the series. */
  lemma {:induction false} MiddayPrefixCut(list: seq<ForecastItem>, n: nat)
    requires n <= |MiddayEntries(list)|
    ensures exists k :: 0 <= k <= |list| && MiddayEntries(list[..k]) == MiddayEntries(list)[..n]
  {
    if n == 0 {
      assert MiddayEntries(list[..0]) == MiddayEntries(list)[..0];
    } else {
      var rest := list[1..];
      var head := MiddayEntries([list[0]]);
      var m := n - |head|;
      assert list == [list[0]] + rest;
      MiddayEntriesAppend([list[0]], rest);
      MiddayPrefixCut(rest, m);
      var k :| 0 <= k <= |rest| && MiddayEntries(rest[..k]) == MiddayEntries(rest)[..m];
      assert list[..k + 1] == [list[0]] + rest[..k];
      MiddayEntriesAppend([list[0]], rest[..k]);
      assert (head + MiddayEntries(rest))[..n] == head + MiddayEntries(rest)[..m];
    }
  }

  /**
   * What the forecast strip holds: the first min(5, #midday) midday entries, in order;
   * all of them when fewer than five match; and exactly the midday entries of some
   * prefix of the series, so nothing between two kept entries was skipped.
   */
  lemma DailyForecastSpec(list: seq<ForecastItem>)
    ensures var r, midday := DailyForecast(list), MiddayEntries(list);
      && |r| == (if |midday| < ForecastDays then |midday| else ForecastDays)
      && r == midday[..|r|]
      && (|midday| < ForecastDays ==> r == midday)
      && exists k :: 0 <= k <= |list| && r == MiddayEntries(list[..k])
  {
    MiddayPrefixCut(list, |DailyForecast(list)|);
  }

  /**
   * On timestamps of the form the forecast API sends, "YYYY-MM-DD hh:mm:ss" (a ten-character
   * date without ':' , a space, an eight-character time), the substring test is the same as
   * asking whether the time is exactly "12:00:00".
   */
  lemma MiddayStamp(date: string, time: string)
    requires |date| == 10 && ':' !in date && |time| == 8
    ensures Includes(date + " " + time, MiddaySlot) <==> time == MiddaySlot
  {
    var s := date + " " + time;
    IncludesIff(s, MiddaySlot);
    if time == MiddaySlot {
      assert s[11..19] == time;
      assert OccursAt(s, MiddaySlot, 11);
    }
    assert forall j :: 0 <= j < 10 ==> s[j] == date[j] && s[j] != ':';
    assert s[10] == ' ' && ' ' !in MiddaySlot;
    forall i: nat | OccursAt(s, MiddaySlot, i)
      ensures time == MiddaySlot
    {
      assert forall j :: i <= j < i + 8 ==> s[j] == MiddaySlot[j - i];
      assert s[i + 2] == ':';
      assert i == 11;
      assert s[11..19] == time;
    }
  }
}
