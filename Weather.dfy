/**
 * The weather widget (`src/components/Weather/weather.jsx`): the eight-point wind rose,
 * the 12-hour clock text, the icon lookup, the per-day fold of the five-day forecast and
 * the state a fetch leaves behind.
 *
 * Degrees and temperatures are integers here. The HTTP requests are an outcome given
 * to `FetchWeather`; the calendar date an entry falls on (`toLocaleDateString` of its
 * time stamp) is a field of the entry; the hour and minute of a time are parameters.
 */
module Weather {
  import opened Wrappers
  import opened Text
  import opened JsMath

  // ------------------------------------------------------------------
  // Wind direction
  // ------------------------------------------------------------------

  const Directions: seq<string> := ["N", "NE", "E", "SE", "S", "SW", "W", "NW"]

  /** `Math.round(deg / 45)`: the integer nearest to deg/45, halves rounded up. */
  function RoundDiv45(deg: int): (r: int)
    ensures 90 * r - 45 <= 2 * deg < 90 * r + 45
  {
    (2 * deg + 45) / 90
  }

  /**
   * `getWindDirection(deg)`: the label at `Math.round(deg / 45) % 8`. JavaScript's `%`
   * keeps the sign, so a negative index reads past the array and gives `undefined`
   * (None); from -22 degrees up there is always a label. Below that, `undefined` comes
   * exactly when the rounded quotient is negative and not a multiple of 8; a label, when
   * there is one, is always the one the Euclidean index picks.
   */
  function WindDirection(deg: int): (r: Option<string>)
    ensures deg >= -22 ==> r == Some(Directions[RoundDiv45(deg) % 8])
    ensures r.None? <==> RoundDiv45(deg) < 0 && RoundDiv45(deg) % 8 != 0
    ensures r.Some? ==> r == Some(Directions[RoundDiv45(deg) % 8])
    ensures r.Some? ==> r.value in Directions
  {
    var index := JsRem(RoundDiv45(deg), 8);
    if index < 0 then None else Some(Directions[index])
  }

  /** Each label covers the 45-degree sector centred on its bearing, from 22 below to 22 above. */
  lemma WindSector(k: nat, deg: int)
    requires k < 8 && 45 * k - 22 <= deg <= 45 * k + 22
    ensures WindDirection(deg) == Some(Directions[k])
  {
    assert RoundDiv45(deg) == k;
  }

  /** A full turn gives the same label. */
  lemma WindFullTurn(deg: int)
    requires deg >= -22
    ensures WindDirection(deg + 360) == WindDirection(deg)
  {
    var x := RoundDiv45(deg);
    ModUnique(2 * (deg + 360) + 45, 90, x + 8, (2 * deg + 45) % 90);
    ModOfShift(x, 1, 8);
  }

  /**
   * North at 0 and 360 degrees, east at 90, north-east from 23; no label at -45 or -90
   * degrees, but north again at -360.
   */
  lemma WindExamples()
    ensures WindDirection(0) == Some("N") && WindDirection(360) == Some("N")
    ensures WindDirection(90) == Some("E") && WindDirection(23) == Some("NE") && WindDirection(22) == Some("N")
    ensures WindDirection(-45) == None && WindDirection(-90) == None && WindDirection(-360) == Some("N")
  {
    assert RoundDiv45(-45) == -1 && RoundDiv45(-90) == -2 && RoundDiv45(-360) == -8;
    WindSector(0, 0);
    WindSector(0, 22);
    WindSector(1, 23);
    WindSector(2, 90);
    WindFullTurn(0);
  }

  // ------------------------------------------------------------------
  // Clock text
  // ------------------------------------------------------------------

  /** `hours % 12 || 12`. */
  function Hour12(hours: int): (h: int)
    requires 0 <= hours < 24
    ensures 1 <= h <= 12
    ensures h % 12 == hours % 12
  {
    if hours % 12 == 0 then 12 else hours % 12
  }

  /** `hours >= 12 ? "PM" : "AM"`. */
  function Meridiem(hours: int): (r: string)
    ensures |r| == 2 && r[1] == 'M'
    ensures r == "PM" <==> hours >= 12
  {
    if hours >= 12 then "PM" else "AM"
  }

  /** `minutes < 10 ? "0" + minutes : minutes`: always two digits. */
  function MinuteText(minutes: int): (r: string)
    requires 0 <= minutes < 60
    ensures |r| == 2 && IsDigits(r) && DecimalValue(r) == minutes
  {
    if minutes < 10 then
      var d := NatToString(minutes);
      assert ("0" + d)[..1] == "0";
      "0" + d
    else
      assert NatToString(minutes / 10) == [DigitChar(minutes / 10)];
      NatToString(minutes)
  }

  /** `getCurrentTime()` and `formatTime(ts)`: "h:mm AM" or "h:mm PM". */
  function ClockText(hours: int, minutes: int): (r: string)
    requires 0 <= hours < 24 && 0 <= minutes < 60
    ensures 7 <= |r| <= 8
  {
    var h := Hour12(hours);
    assert h < 10 ==> NatToString(h) == [DigitChar(h)];
    assert h >= 10 ==> NatToString(h) == NatToString(h / 10) + [DigitChar(h % 10)] && NatToString(h / 10) == [DigitChar(h / 10)];
    NatToString(h) + ":" + MinuteText(minutes) + " " + Meridiem(hours)
  }

  /** The clock text splits back into the 12-hour number, the two minute digits and the meridiem. */
  lemma ClockTextParts(hours: int, minutes: int)
    requires 0 <= hours < 24 && 0 <= minutes < 60
    ensures var r := ClockText(hours, minutes);
      && r[..|r| - 6] == NatToString(Hour12(hours))
      && r[|r| - 5..|r| - 3] == MinuteText(minutes)
      && r[|r| - 2..] == Meridiem(hours)
  {
  }

  /** Different minutes show different minute digits. */
  lemma MinuteTextInjective(m1: int, m2: int)
    requires 0 <= m1 < 60 && 0 <= m2 < 60 && MinuteText(m1) == MinuteText(m2)
    ensures m1 == m2
  {
    assert DecimalValue(MinuteText(m1)) == DecimalValue(MinuteText(m2));
  }

  /** Different hours show a different 12-hour number or a different meridiem. */
  lemma HourTextInjective(h1: int, h2: int)
    requires 0 <= h1 < 24 && 0 <= h2 < 24
    requires NatToString(Hour12(h1)) == NatToString(Hour12(h2)) && Meridiem(h1) == Meridiem(h2)
    ensures h1 == h2
  {
    assert Hour12(h1) == Hour12(h2) by {
      assert DecimalValue(NatToString(Hour12(h1))) == DecimalValue(NatToString(Hour12(h2)));
    }
  }

  /** Different times of day never show the same text. */
  lemma ClockTextInjective(h1: int, m1: int, h2: int, m2: int)
    requires 0 <= h1 < 24 && 0 <= m1 < 60 && 0 <= h2 < 24 && 0 <= m2 < 60
    requires ClockText(h1, m1) == ClockText(h2, m2)
    ensures h1 == h2 && m1 == m2
  {
    ClockTextParts(h1, m1);
    ClockTextParts(h2, m2);
    MinuteTextInjective(m1, m2);
    HourTextInjective(h1, h2);
  }

  /** Midnight is 12 AM and noon is 12 PM. */
  lemma MidnightAndNoon()
    ensures Hour12(0) == 12 && Meridiem(0) == "AM"
    ensures Hour12(12) == 12 && Meridiem(12) == "PM"
  {
  }

  // ------------------------------------------------------------------
  // Icons
  // ------------------------------------------------------------------

  const DefaultIcon := "day-sunny"

  /** `iconMap`: OpenWeatherMap icon codes to icon names. */
  const IconMap: map<string, string> := map[
    "01d" := "day-sunny", "01n" := "night-clear", "02d" := "day-cloudy", "02n" := "night-alt-cloudy",
    "03d" := "cloud", "03n" := "cloud", "04d" := "cloudy", "04n" := "cloudy",
    "09d" := "showers", "09n" := "showers", "10d" := "rain", "10n" := "rain",
    "11d" := "thunderstorm", "11n" := "thunderstorm", "13d" := "snow", "13n" := "snow",
    "50d" := "fog", "50n" := "fog"]

  /** `currentIcon`: the mapped icon of the current weather's code, "day-sunny" without weather or for an unknown code. */
  function IconFor(code: Option<string>): (r: string)
    ensures code.Some? && code.value in IconMap ==> r == IconMap[code.value]
    ensures code.None? || code.value !in IconMap ==> r == DefaultIcon
    ensures r in IconMap.Values
  {
    assert IconMap["01d"] == DefaultIcon;
    if code.Some? && code.value in IconMap then IconMap[code.value] else DefaultIcon
  }

  // ------------------------------------------------------------------
  // Forecast
  // ------------------------------------------------------------------

  /** The first element of an entry's `weather` array. */
  datatype Condition = Condition(icon: string, description: string)

  /** One three-hour entry of the forecast `list`, with the calendar date its time stamp falls on. */
  datatype ForecastEntry = ForecastEntry(dt: int, date: string, tempMax: int, tempMin: int, weather: Condition)

  /** One accumulated day of the daily forecast. */
  datatype Day = Day(dt: int, tempMax: int, tempMin: int, weather: Condition)

  /** The `reduce` accumulator: the days by date, and the dates in the order they were added. */
  datatype Acc = Acc(days: map<string, Day>, order: seq<string>)

  function Max(a: int, b: int): int { if a >= b then a else b }
  function Min(a: int, b: int): int { if a <= b then a else b }

  /** One step of the `reduce`: a new date starts a day, a known date widens its temperature range. */
  function AddEntry(acc: Acc, e: ForecastEntry): Acc {
    if e.date !in acc.days then
      Acc(acc.days[e.date := Day(e.dt, e.tempMax, e.tempMin, e.weather)], acc.order + [e.date])
    else
      var d := acc.days[e.date];
      Acc(acc.days[e.date := d.(tempMax := Max(d.tempMax, e.tempMax), tempMin := Min(d.tempMin, e.tempMin))], acc.order)
  }

  /** The `reduce` over the whole list, starting from `{}`. */
  function FoldDays(list: seq<ForecastEntry>): Acc
    decreases |list|
  {
    if list == [] then Acc(map[], []) else AddEntry(FoldDays(list[..|list| - 1]), list[|list| - 1])
  }

  /** The dates of the accumulator are exactly the dates of the list, each listed once. */
  lemma {:induction false} FoldDaysKeys(list: seq<ForecastEntry>)
    ensures var acc := FoldDays(list);
      && (forall k :: k in acc.order <==> k in acc.days)
      && (forall i, j :: 0 <= i < j < |acc.order| ==> acc.order[i] != acc.order[j])
      && (forall k :: k in acc.days <==> exists i :: 0 <= i < |list| && list[i].date == k)
      && |acc.order| <= |list|
    decreases |list|
  {
    if list != [] {
      var p := list[..|list| - 1];
      FoldDaysKeys(p);
      assert forall i :: 0 <= i < |p| ==> list[i] == p[i];
    }
  }

  /**
   * The days are in order of first appearance: the k-th date first occurs at an entry
   * before which only the dates listed ahead of it occur.
   */
  lemma {:induction false} FoldDaysFirstAppearance(list: seq<ForecastEntry>)
    ensures var order := FoldDays(list).order;
      forall k :: 0 <= k < |order| ==>
        exists i :: 0 <= i < |list| && list[i].date == order[k] && forall j :: 0 <= j < i ==> list[j].date in order[..k]
    decreases |list|
  {
    if list != [] {
      var p := list[..|list| - 1];
      var e := list[|list| - 1];
      FoldDaysFirstAppearance(p);
      FoldDaysKeys(p);
      var before := FoldDays(p).order;
      var order := FoldDays(list).order;
      assert forall i :: 0 <= i < |p| ==> list[i] == p[i];
      assert order[..|before|] == before;
      forall k | 0 <= k < |order|
        ensures exists i :: 0 <= i < |list| && list[i].date == order[k] && forall j :: 0 <= j < i ==> list[j].date in order[..k]
      {
        if k < |before| {
          assert order[..k] == before[..k];
          var i :| 0 <= i < |p| && p[i].date == before[k] && forall j :: 0 <= j < i ==> p[j].date in before[..k];
          assert list[i].date == order[k];
        } else {
          assert order[..k] == before;
          assert forall j :: 0 <= j < |p| ==> p[j].date in before;
          assert list[|list| - 1].date == order[k];
        }
      }
    }
  }

  /** The first entry of a date fixes the day's time stamp and weather. */
  lemma {:induction false} FirstEntryFixesDay(list: seq<ForecastEntry>, i: nat)
    requires i < |list| && forall j :: 0 <= j < i ==> list[j].date != list[i].date
    ensures list[i].date in FoldDays(list).days
    ensures FoldDays(list).days[list[i].date].dt == list[i].dt
    ensures FoldDays(list).days[list[i].date].weather == list[i].weather
    decreases |list|
  {
    var p := list[..|list| - 1];
    FoldDaysKeys(p);
    if i < |list| - 1 {
      FirstEntryFixesDay(p, i);
    } else {
      assert forall j :: 0 <= j < |p| ==> p[j].date != list[i].date;
    }
  }

  /** Every entry's temperatures lie within its day's range. */
  lemma {:induction false} DayCoversEntry(list: seq<ForecastEntry>, i: nat)
    requires i < |list|
    ensures list[i].date in FoldDays(list).days
    ensures FoldDays(list).days[list[i].date].tempMax >= list[i].tempMax
    ensures FoldDays(list).days[list[i].date].tempMin <= list[i].tempMin
    decreases |list|
  {
    if i < |list| - 1 {
      DayCoversEntry(list[..|list| - 1], i);
    }
  }

  /** A day's highest and lowest temperatures are those of some entry of that date. */
  lemma {:induction false} DayRangeAttained(list: seq<ForecastEntry>, k: string)
    requires k in FoldDays(list).days
    ensures exists i :: 0 <= i < |list| && list[i].date == k && FoldDays(list).days[k].tempMax == list[i].tempMax
    ensures exists i :: 0 <= i < |list| && list[i].date == k && FoldDays(list).days[k].tempMin == list[i].tempMin
    decreases |list|
  {
    var p := list[..|list| - 1];
    var e := list[|list| - 1];
    assert forall i :: 0 <= i < |p| ==> list[i] == p[i];
    if k in FoldDays(p).days {
      DayRangeAttained(p, k);
    }
  }

  /** When no entry's low is above its high, no day's low is above its high. */
  lemma {:induction false} DayRangeOrdered(list: seq<ForecastEntry>)
    requires forall i :: 0 <= i < |list| ==> list[i].tempMin <= list[i].tempMax
    ensures forall k :: k in FoldDays(list).days ==> FoldDays(list).days[k].tempMin <= FoldDays(list).days[k].tempMax
    decreases |list|
  {
    if list != [] {
      DayRangeOrdered(list[..|list| - 1]);
    }
  }

  /** `Object.values(dailyData)`: the days in the order their dates were first seen. */
  function DaysInOrder(list: seq<ForecastEntry>): (r: seq<Day>)
    ensures var acc := FoldDays(list); |r| == |acc.order| && forall k :: 0 <= k < |r| ==> acc.order[k] in acc.days && r[k] == acc.days[acc.order[k]]
  {
    var acc := FoldDays(list);
    FoldDaysKeys(list);
    seq(|acc.order|, k requires 0 <= k < |acc.order| => acc.days[acc.order[k]])
  }

  /** `.slice(0, 5)`: at most the first five elements. */
  function FirstFive<T>(xs: seq<T>): (r: seq<T>)
    ensures |r| <= 5 && |r| <= |xs|
    ensures r == xs[..|r|]
    ensures |xs| >= 5 ==> |r| == 5
  {
    if |xs| <= 5 then xs else xs[..5]
  }

  /**
   * The `reduce` followed by `Object.values(...).slice(0, 5)`, as the component runs it:
   * one pass over the entries updating the accumulator in place, then the first five days.
   */
  method DailyForecast(list: seq<ForecastEntry>) returns (daily: seq<Day>)
    ensures daily == FirstFive(DaysInOrder(list))
  {
    var days: map<string, Day> := map[];
    var order: seq<string> := [];
    var i := 0;
    while i < |list|
      invariant 0 <= i <= |list|
      invariant Acc(days, order) == FoldDays(list[..i])
    {
      assert list[..i + 1][..i] == list[..i];
      var e := list[i];
      if e.date !in days {
        days := days[e.date := Day(e.dt, e.tempMax, e.tempMin, e.weather)];
        order := order + [e.date];
      } else {
        days := days[e.date := days[e.date].(tempMax := Max(days[e.date].tempMax, e.tempMax))];
        days := days[e.date := days[e.date].(tempMin := Min(days[e.date].tempMin, e.tempMin))];
      }
      i := i + 1;
    }
    assert list[..|list|] == list;
    FoldDaysKeys(list);
    var values: seq<Day> := [];
    var k := 0;
    while k < |order| && k < 5
      invariant 0 <= k <= |order| && k <= 5
      invariant values == DaysInOrder(list)[..k]
    {
      values := values + [days[order[k]]];
      k := k + 1;
    }
    daily := values;
  }

  // ------------------------------------------------------------------
  // Widget state
  // ------------------------------------------------------------------

  /** The current-weather answer; only its first condition's icon code is read here. */
  datatype Current = Current(icon: string)

  /** How the two requests of one `fetchWeather` ended. */
  datatype FetchOutcome =
    | Fetched(current: Current, list: seq<ForecastEntry>)
    | NotFound                      // a response with status 404
    | Failed                        // any other failure of either request
    | NoForecastList(current: Current) // both answered, but the forecast has no `list`

  const NotFoundText := "City not found."
  const FetchFailedText := "Failed to fetch weather."

  class WeatherWidget {
    var city: string
    var apiKey: string
    var weather: Option<Current>
    var forecast: Option<seq<ForecastEntry>>
    var dailyForecast: Option<seq<Day>>
    var error: Option<string>
    var loading: bool

    /** Mounted for a city and key: nothing fetched yet, no error, not loading. */
    constructor (apiKey: string, defaultCity: string)
      ensures this.apiKey == apiKey && city == defaultCity
      ensures weather == None && forecast == None && dailyForecast == None && error == None && !loading
    {
      this.apiKey := apiKey;
      city := defaultCity;
      weather, forecast, dailyForecast, error, loading := None, None, None, None, false;
    }

    /** The icon the widget shows for the current weather. */
    function CurrentIcon(): (r: string)
      reads this`weather
      ensures weather.None? ==> r == DefaultIcon
      ensures weather.Some? ==> r == IconFor(Some(weather.value.icon))
    {
      IconFor(if weather.Some? then Some(weather.value.icon) else None)
    }

    /**
     * `fetchWeather` run to completion: nothing at all without a city or a key; otherwise
     * loading ends false and either the current weather, the first five entries and
     * the first five days are shown with no error, or an error text is set. The current
     * weather is already shown when only the forecast's `list` is missing.
     */
    method FetchWeather(outcome: FetchOutcome)
      modifies this`weather, this`forecast, this`dailyForecast, this`error, this`loading
      ensures city == "" || apiKey == "" ==> unchanged(this)
      ensures city != "" && apiKey != "" ==> !loading
      ensures city != "" && apiKey != "" && outcome.Fetched? ==>
        && weather == Some(outcome.current) && error == None
        && forecast == Some(FirstFive(outcome.list))
        && dailyForecast == Some(FirstFive(DaysInOrder(outcome.list)))
      ensures city != "" && apiKey != "" && outcome.NotFound? ==>
        && error == Some(NotFoundText)
        && weather == old(weather) && forecast == old(forecast) && dailyForecast == old(dailyForecast)
      ensures city != "" && apiKey != "" && outcome.Failed? ==>
        && error == Some(FetchFailedText)
        && weather == old(weather) && forecast == old(forecast) && dailyForecast == old(dailyForecast)
      ensures city != "" && apiKey != "" && outcome.NoForecastList? ==>
        && error == Some(FetchFailedText) && weather == Some(outcome.current)
        && forecast == old(forecast) && dailyForecast == old(dailyForecast)
    {
      if city == "" || apiKey == "" {
        return;
      }
      loading := true;
      error := None;
      match outcome {
        case Fetched(current, list) =>
          weather := Some(current);
          forecast := Some(FirstFive(list));
          var daily := DailyForecast(list);
          dailyForecast := Some(daily);
        case NotFound =>
          error := Some(NotFoundText);
        case Failed =>
          error := Some(FetchFailedText);
        case NoForecastList(current) =>
          weather := Some(current);
          error := Some(FetchFailedText);
      }
      loading := false;
    }
  }
}
