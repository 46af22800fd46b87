/** The older pair of weather components (src/components/weather.js): a
    current-conditions card and an hourly table split into TODAY and TOMORROW.
    Neither keeps a cache: any failure replaces the content with an error box.
    The clock is the parameter `now` and the host time zone the parameter
    `offset` (local minus UTC, in milliseconds). */
module WeatherLegacy {
  import opened Common
  import opened CivilTime
  import Forecast
  import WeatherCurrent

  // ---------------------------------------------------------------- icons

  /** The emoji table of this file's `getWeatherIcon`. */
  const LegacyEmojiTable: map<string, string> := map[
    "Clear" := "\U{2600}\U{FE0F}", "Clouds" := "\U{2601}\U{FE0F}", "Rain" := "\U{1F327}\U{FE0F}",
    "Drizzle" := "\U{1F326}\U{FE0F}", "Thunderstorm" := "\U{26C8}\U{FE0F}", "Snow" := "\U{2744}\U{FE0F}",
    "Mist" := "\U{1F32B}\U{FE0F}", "Smoke" := "\U{1F4A8}", "Haze" := "\U{1F32B}\U{FE0F}",
    "Dust" := "\U{1F32A}\U{FE0F}", "Fog" := "\U{1F32B}\U{FE0F}", "Sand" := "\U{1F32A}\U{FE0F}",
    "Ash" := "\U{1F4A8}", "Squall" := "\U{1F4A8}", "Tornado" := "\U{1F32A}\U{FE0F}"]

  /** `icons[condition] || '🌤️'`. */
  const FallbackEmoji: string := "\U{1F324}\U{FE0F}"

  /** `getWeatherIcon(condition)`: the fifteen known groups have their own
      picture, anything else the fallback; the pictures are those of the
      current-conditions card. */
  function ForecastIcon(condition: string): (r: string)
    ensures r == FallbackEmoji <==> condition !in WeatherCurrent.KnownConditions
    ensures r == WeatherCurrent.WeatherIcon(condition).emoji
  {
    assert LegacyEmojiTable == WeatherCurrent.EmojiTable;
    WeatherCurrent.Lookup(LegacyEmojiTable, condition, FallbackEmoji)
  }

  // ---------------------------------------------------------------- current conditions

  const FixedSunrise: string := "7:34 AM"
  const FixedSunset: string := "5:18 PM"

  /** What `renderCurrent` shows. */
  datatype CurrentView = CurrentView(
    temp: int, condition: string, humidity: int, windSpeed: int,
    aqi: Option<WeatherCurrent.AqiBand>, pressure: int, trend: string, sunrise: string, sunset: string)

  /** `renderCurrent(current)`: the AQI row only for a truthy AQI, the pressure
      falling back to `pressureMb`, a constant trend and fixed sun times. */
  function CurrentViewOf(c: Forecast.Current): (v: CurrentView)
    ensures v.aqi.Some? <==> c.aqi.Some? && c.aqi.value != 0
    ensures v.aqi.Some? ==> v.aqi.value == WeatherCurrent.AqiColor(c.aqi.value)
    ensures v.pressure == c.pressure || (c.pressure == 0 && v.pressure == c.pressureMb)
    ensures v.temp == c.temp && v.condition == c.condition && v.humidity == c.humidity && v.windSpeed == c.windSpeed
  {
    CurrentView(c.temp, c.condition, c.humidity, c.windSpeed,
                if c.aqi.Some? && c.aqi.value != 0 then Some(WeatherCurrent.AqiColor(c.aqi.value)) else None,
                if c.pressure != 0 then c.pressure else c.pressureMb,
                WeatherCurrent.Steady, FixedSunrise, FixedSunset)
  }

  /** The trend and the sun times do not depend on the data: the trend always
      reads '➡️ Steady', sunrise '7:34 AM' and sunset '5:18 PM'. */
  lemma FixedReadings(c: Forecast.Current, d: Forecast.Current)
    ensures CurrentViewOf(c).trend == CurrentViewOf(d).trend == WeatherCurrent.Steady
    ensures CurrentViewOf(c).sunrise == CurrentViewOf(d).sunrise == "7:34 AM"
    ensures CurrentViewOf(c).sunset == CurrentViewOf(d).sunset == "5:18 PM"
  {
  }

  // ---------------------------------------------------------------- the hourly table

  /** `hourly.slice(0, 12)`. */
  const ShownHours: nat := 12

  /** `new Date(item.time).toDateString() === now.toDateString()`: the same
      local date as now. */
  predicate IsToday(item: Forecast.Hourly, now: int, offset: int) {
    LocalDay(item.time, offset) == LocalDay(now, offset)
  }

  /** The items of today, in their order. */
  function TodayOf(items: seq<Forecast.Hourly>, now: int, offset: int): (r: seq<Forecast.Hourly>)
    ensures |r| <= |items|
    ensures forall x :: x in r ==> x in items && IsToday(x, now, offset)
  {
    if items == [] then []
    else
      var last := items[|items| - 1];
      TodayOf(items[..|items| - 1], now, offset) + (if IsToday(last, now, offset) then [last] else [])
  }

  /** The items of every other date (yesterday and later days included), in their order. */
  function TomorrowOf(items: seq<Forecast.Hourly>, now: int, offset: int): (r: seq<Forecast.Hourly>)
    ensures |r| <= |items|
    ensures forall x :: x in r ==> x in items && !IsToday(x, now, offset)
  {
    if items == [] then []
    else
      var last := items[|items| - 1];
      TomorrowOf(items[..|items| - 1], now, offset) + (if IsToday(last, now, offset) then [] else [last])
  }

  /** The loop of `renderForecast` over the first twelve items. */
  method SplitByDay(hourly: seq<Forecast.Hourly>, now: int, offset: int)
    returns (todayItems: seq<Forecast.Hourly>, tomorrowItems: seq<Forecast.Hourly>)
    ensures todayItems == TodayOf(Take(hourly, ShownHours), now, offset)
    ensures tomorrowItems == TomorrowOf(Take(hourly, ShownHours), now, offset)
  {
    var items := Take(hourly, ShownHours);
    todayItems, tomorrowItems := [], [];
    var i := 0;
    while i < |items|
      invariant 0 <= i <= |items|
      invariant todayItems == TodayOf(items[..i], now, offset)
      invariant tomorrowItems == TomorrowOf(items[..i], now, offset)
    {
      assert items[..i + 1][..i] == items[..i];
      if IsToday(items[i], now, offset) {
        todayItems := todayItems + [items[i]];
      } else {
        tomorrowItems := tomorrowItems + [items[i]];
      }
      i := i + 1;
    }
    assert items[..i] == items;
  }

  /** Both filters keep the order of appearance: filtering a concatenation
      concatenates the filtered parts. */
  lemma {:induction false} SplitOfConcat(xs: seq<Forecast.Hourly>, ys: seq<Forecast.Hourly>, now: int, offset: int)
    ensures TodayOf(xs + ys, now, offset) == TodayOf(xs, now, offset) + TodayOf(ys, now, offset)
    ensures TomorrowOf(xs + ys, now, offset) == TomorrowOf(xs, now, offset) + TomorrowOf(ys, now, offset)
    decreases |ys|
  {
    if ys != [] {
      var init := ys[..|ys| - 1];
      var last := ys[|ys| - 1];
      DropLastOfAppend(xs, ys);
      SplitOfConcat(xs, init, now, offset);
      AppendAssoc(TodayOf(xs, now, offset), TodayOf(init, now, offset), if IsToday(last, now, offset) then [last] else []);
      AppendAssoc(TomorrowOf(xs, now, offset), TomorrowOf(init, now, offset), if IsToday(last, now, offset) then [] else [last]);
    } else {
      assert xs + ys == xs;
    }
  }

  /** Every item lands in exactly one of the two tables. */
  lemma {:induction false} SplitIsExact(items: seq<Forecast.Hourly>, now: int, offset: int)
    ensures multiset(TodayOf(items, now, offset)) + multiset(TomorrowOf(items, now, offset)) == multiset(items)
    ensures |TodayOf(items, now, offset)| + |TomorrowOf(items, now, offset)| == |items|
  {
    if items != [] {
      var init := items[..|items| - 1];
      var last := items[|items| - 1];
      SplitIsExact(init, now, offset);
      assert items == init + [last];
      assert multiset(items) == multiset(init) + multiset{last};
      if IsToday(last, now, offset) {
        assert TodayOf(items, now, offset) == TodayOf(init, now, offset) + [last];
        assert TomorrowOf(items, now, offset) == TomorrowOf(init, now, offset);
      } else {
        assert TodayOf(items, now, offset) == TodayOf(init, now, offset);
        assert TomorrowOf(items, now, offset) == TomorrowOf(init, now, offset) + [last];
      }
    }
  }

  /** With every item of today's date the TOMORROW list is empty. */
  lemma {:induction false} AllTodayLeavesNoTomorrow(items: seq<Forecast.Hourly>, now: int, offset: int)
    requires forall i :: 0 <= i < |items| ==> IsToday(items[i], now, offset)
    ensures TomorrowOf(items, now, offset) == []
  {
    if items != [] {
      AllTodayLeavesNoTomorrow(items[..|items| - 1], now, offset);
    }
  }

  /** An item of the table's range is under TODAY iff it has today's local
      date, and under TOMORROW otherwise, whichever other date that is. */
  lemma ItemPlacement(items: seq<Forecast.Hourly>, now: int, offset: int, x: Forecast.Hourly)
    requires x in items
    ensures IsToday(x, now, offset) ==> x in TodayOf(items, now, offset)
    ensures !IsToday(x, now, offset) ==> x in TomorrowOf(items, now, offset)
  {
    SplitIsExact(items, now, offset);
    assert multiset(items)[x] > 0;
    if IsToday(x, now, offset) {
      assert x !in TomorrowOf(items, now, offset);
      assert multiset(TomorrowOf(items, now, offset))[x] == 0;
    } else {
      assert x !in TodayOf(items, now, offset);
      assert multiset(TodayOf(items, now, offset))[x] == 0;
    }
  }

  /** What `renderForecast` shows: the TODAY rows, and the TOMORROW rows when there are any. */
  datatype ForecastView = ForecastView(today: seq<Forecast.Hourly>, tomorrow: Option<seq<Forecast.Hourly>>)

  function ForecastViewOf(hourly: seq<Forecast.Hourly>, now: int, offset: int): (v: ForecastView)
    ensures v.tomorrow.Some? ==> v.tomorrow.value != []
  {
    var items := Take(hourly, ShownHours);
    var later := TomorrowOf(items, now, offset);
    ForecastView(TodayOf(items, now, offset), if later == [] then None else Some(later))
  }

  /** The TOMORROW table is emitted iff one of the first twelve items is not
      of today's date. */
  lemma TomorrowTableIff(hourly: seq<Forecast.Hourly>, now: int, offset: int)
    ensures ForecastViewOf(hourly, now, offset).tomorrow.Some? <==>
      exists i :: 0 <= i < |hourly| && i < ShownHours && !IsToday(hourly[i], now, offset)
  {
    var items := Take(hourly, ShownHours);
    if exists i :: 0 <= i < |hourly| && i < ShownHours && !IsToday(hourly[i], now, offset) {
      var i :| 0 <= i < |hourly| && i < ShownHours && !IsToday(hourly[i], now, offset);
      assert items[i] == hourly[i];
      ItemPlacement(items, now, offset, hourly[i]);
    } else {
      assert forall i :: 0 <= i < |items| ==> items[i] == hourly[i];
      AllTodayLeavesNoTomorrow(items, now, offset);
    }
  }

  /** Items after the twelfth never reach either table. */
  lemma OnlyFirstTwelve(hourly: seq<Forecast.Hourly>, extra: seq<Forecast.Hourly>, now: int, offset: int)
    requires |hourly| >= ShownHours
    ensures ForecastViewOf(hourly + extra, now, offset) == ForecastViewOf(hourly, now, offset)
  {
    assert Take(hourly + extra, ShownHours) == Take(hourly, ShownHours);
  }

  // ---------------------------------------------------------------- the components

  /** What `fetch('/api/weather?...')` gave: a throw, or a response and its parsed body. */
  datatype WeatherFetch = FetchThrew(message: string) | FetchAnswered(ok: bool, weather: Forecast.Weather)

  /** The content of a component's shadow root. */
  datatype Screen =
    | Loading
    | Conditions(current: CurrentView)
    | Table(forecast: ForecastView)
    | ErrorShown(message: string)   // the box of `showError(message)`

  /** The message passed to `showError`: the thrown error's, or a fixed one for
      a reply that is not ok. */
  function FailureScreen(w: WeatherFetch): (s: Screen)
    requires w.FetchThrew? || !w.ok
    ensures w.FetchThrew? ==> s == ErrorShown(w.message)
    ensures w.FetchAnswered? ==> s == ErrorShown("Weather API error")
  {
    if w.FetchThrew? then ErrorShown(w.message) else ErrorShown("Weather API error")
  }

  /** The content after `fetchWeather` of the current-conditions card. */
  function CurrentScreen(w: WeatherFetch): (s: Screen)
    ensures s.ErrorShown? <==> w.FetchThrew? || !w.ok
    ensures !s.ErrorShown? ==> s == Conditions(CurrentViewOf(w.weather.current))
  {
    if w.FetchThrew? || !w.ok then FailureScreen(w) else Conditions(CurrentViewOf(w.weather.current))
  }

  /** The content after `fetchForecast` of the hourly table. */
  function ForecastScreen(w: WeatherFetch, now: int, offset: int): (s: Screen)
    ensures s.ErrorShown? <==> w.FetchThrew? || !w.ok
    ensures !s.ErrorShown? ==> s == Table(ForecastViewOf(w.weather.hourly, now, offset))
  {
    if w.FetchThrew? || !w.ok then FailureScreen(w) else Table(ForecastViewOf(w.weather.hourly, now, offset))
  }

  /** The left-hand card of the older layout. */
  class ConditionsCard {
    var screen: Screen

    constructor()
      ensures screen == Loading
    {
      screen := Loading;
    }

    /** With no cache the content after a fetch depends on that fetch alone. */
    method FetchWeather(w: WeatherFetch)
      modifies this
      ensures screen == CurrentScreen(w)
    {
      if w.FetchThrew? || !w.ok {
        screen := FailureScreen(w);
        return;
      }
      screen := Conditions(CurrentViewOf(w.weather.current));
    }
  }

  /** The right-hand hourly table of the older layout. */
  class ForecastTable {
    var screen: Screen

    constructor()
      ensures screen == Loading
    {
      screen := Loading;
    }

    method FetchForecast(w: WeatherFetch, now: int, offset: int)
      modifies this
      ensures screen == ForecastScreen(w, now, offset)
    {
      if w.FetchThrew? || !w.ok {
        screen := FailureScreen(w);
        return;
      }
      var todayItems, tomorrowItems := SplitByDay(w.weather.hourly, now, offset);
      screen := Table(ForecastView(todayItems, if tomorrowItems == [] then None else Some(tomorrowItems)));
    }
  }
}
