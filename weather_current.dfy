/** The current-conditions card (src/components/weather/weather-current/weather-current.js):
    the AQI band table, the weather icon tables, the pressure trend kept in a
    reading history in browser storage, the trend colour, the sun-time guard,
    and the cached redraw when a fetch fails. The clock is the parameter `now`
    (milliseconds); the history held under the storage key
    `weatherPressureHistory` is a field of the component. */
module WeatherCurrent {
  import opened Common
  import opened CivilTime
  import Forecast

  // ---------------------------------------------------------------- AQI

  datatype AqiBand = AqiBand(color: string, text: string)

  /** `getAQIColor(aqi)`. */
  function AqiColor(aqi: int): (b: AqiBand)
    ensures b.text == "Good" <==> aqi <= 50
    ensures b.text == "Moderate" <==> 50 < aqi <= 100
    ensures b.text == "Unhealthy" <==> 100 < aqi <= 150
    ensures b.text == "Very Unhealthy" <==> 150 < aqi <= 300
    ensures b.text == "Hazardous" <==> 300 < aqi
  {
    if aqi <= 50 then AqiBand("var(--aqi-good)", "Good")
    else if aqi <= 100 then AqiBand("var(--aqi-moderate)", "Moderate")
    else if aqi <= 150 then AqiBand("var(--aqi-unhealthy-sensitive)", "Unhealthy")
    else if aqi <= 200 then AqiBand("var(--aqi-unhealthy)", "Very Unhealthy")
    else if aqi <= 300 then AqiBand("var(--aqi-very-unhealthy)", "Very Unhealthy")
    else AqiBand("var(--aqi-hazardous)", "Hazardous")
  }

  /** The two bands from 151 to 300 share a label and differ only in colour. */
  lemma VeryUnhealthyTwice(a: int, b: int)
    requires 150 < a <= 200 < b <= 300
    ensures AqiColor(a).text == AqiColor(b).text == "Very Unhealthy"
    ensures AqiColor(a).color != AqiColor(b).color
  {
  }

  // ---------------------------------------------------------------- icons

  const DefaultEmoji: string := "\U{1F324}\U{FE0F}"
  const DefaultGlyph: string := "\U{e30d}"

  /** The emoji per OpenWeatherMap condition group. */
  const EmojiTable: map<string, string> := map[
    "Clear" := "\U{2600}\U{FE0F}", "Clouds" := "\U{2601}\U{FE0F}", "Rain" := "\U{1F327}\U{FE0F}",
    "Drizzle" := "\U{1F326}\U{FE0F}", "Thunderstorm" := "\U{26C8}\U{FE0F}", "Snow" := "\U{2744}\U{FE0F}",
    "Mist" := "\U{1F32B}\U{FE0F}", "Smoke" := "\U{1F4A8}", "Haze" := "\U{1F32B}\U{FE0F}",
    "Dust" := "\U{1F32A}\U{FE0F}", "Fog" := "\U{1F32B}\U{FE0F}", "Sand" := "\U{1F32A}\U{FE0F}",
    "Ash" := "\U{1F4A8}", "Squall" := "\U{1F4A8}", "Tornado" := "\U{1F32A}\U{FE0F}"]

  /** The Nerd Font glyph per condition group. */
  const GlyphTable: map<string, string> := map[
    "Clear" := "\U{e30d}", "Clouds" := "\U{e33d}", "Rain" := "\U{e318}", "Drizzle" := "\U{e319}",
    "Thunderstorm" := "\U{e31d}", "Snow" := "\U{e31a}", "Mist" := "\U{e313}", "Smoke" := "\U{e35c}",
    "Haze" := "\U{e313}", "Dust" := "\U{e35c}", "Fog" := "\U{e313}", "Sand" := "\U{e35c}",
    "Ash" := "\U{e35c}", "Squall" := "\U{e34b}", "Tornado" := "\U{e351}"]

  /** The fifteen condition groups both tables know. */
  const KnownConditions: set<string> := {"Clear", "Clouds", "Rain", "Drizzle", "Thunderstorm", "Snow", "Mist",
    "Smoke", "Haze", "Dust", "Fog", "Sand", "Ash", "Squall", "Tornado"}

  datatype Icons = Icons(emoji: string, nerdFont: string)

  /** `table[key] || fallback`: every entry is non-empty, so a missing key gives the fallback. */
  function Lookup(table: map<string, string>, key: string, fallback: string): string {
    if key in table && table[key] != "" then table[key] else fallback
  }

  /** `getWeatherIcon(condition)`. */
  function WeatherIcon(condition: string): (r: Icons)
    ensures condition !in KnownConditions ==> r == Icons(DefaultEmoji, DefaultGlyph)
    ensures condition in KnownConditions ==> r == Icons(EmojiTable[condition], GlyphTable[condition])
  {
    Icons(Lookup(EmojiTable, condition, DefaultEmoji), Lookup(GlyphTable, condition, DefaultGlyph))
  }

  /** The three fog-like groups share one picture, and the three wind-borne
      particle groups share another. */
  lemma SharedIcons()
    ensures WeatherIcon("Mist") == WeatherIcon("Haze") == WeatherIcon("Fog")
    ensures WeatherIcon("Smoke").nerdFont == WeatherIcon("Dust").nerdFont == WeatherIcon("Sand").nerdFont
    ensures WeatherIcon("Dust").emoji == WeatherIcon("Sand").emoji == WeatherIcon("Tornado").emoji
  {
  }

  // ---------------------------------------------------------------- pressure trend

  const Steady: string := "\U{27A1}\U{FE0F} Steady"
  const Rising: string := "\U{2B06}\U{FE0F} Rising"
  const Falling: string := "\U{2B07}\U{FE0F} Falling"

  datatype Reading = Reading(pressure: int, timestamp: int)

  /** The stored history: absent, unreadable (JSON.parse or the readings
      access throws), or its readings. */
  datatype History = Absent | Unreadable | Readings(readings: seq<Reading>)

  /** `readings.filter(r => r.timestamp > cutoff)`. */
  function After(rs: seq<Reading>, cutoff: int): (r: seq<Reading>)
    ensures |r| <= |rs|
    ensures forall x :: x in r <==> x in rs && x.timestamp > cutoff
  {
    if rs == [] then []
    else After(rs[..|rs| - 1], cutoff) + (if rs[|rs| - 1].timestamp > cutoff then [rs[|rs| - 1]] else [])
  }

  /** `readings.find(r => r.timestamp < cutoff)`. */
  function FirstBefore(rs: seq<Reading>, cutoff: int): (r: Option<nat>)
    ensures r.Some? ==> r.value < |rs| && rs[r.value].timestamp < cutoff &&
                        forall j :: 0 <= j < r.value ==> rs[j].timestamp >= cutoff
    ensures r.None? ==> forall j :: 0 <= j < |rs| ==> rs[j].timestamp >= cutoff
  {
    if rs == [] then None
    else if rs[0].timestamp < cutoff then Some(0)
    else match FirstBefore(rs[1..], cutoff)
      case None => None
      case Some(k) => Some(k + 1)
  }

  const SixHours: int := 6 * MsPerHour
  const ThreeHours: int := 3 * MsPerHour

  /** The history after `getPressureTrend(p)` at `now`. */
  function HistoryAfter(h: History, p: int, now: int): History {
    match h
    case Absent => Readings([Reading(p, now)])
    case Unreadable => Unreadable
    case Readings(rs) => Readings(After(rs, now - SixHours) + [Reading(p, now)])
  }

  /** A pressure difference over three hours, against the ±2 hPa threshold. */
  function TrendOfDiff(diff: int): (t: string)
    ensures t == Rising <==> diff > 2
    ensures t == Falling <==> diff < -2
    ensures t == Steady <==> -2 <= diff <= 2
  {
    if diff > 2 then Rising else if diff < -2 then Falling else Steady
  }

  /** The text `getPressureTrend(p)` returns at `now`. */
  function TrendOf(h: History, p: int, now: int): string {
    match h
    case Absent => Steady
    case Unreadable => Steady
    case Readings(rs) =>
      var all := After(rs, now - SixHours) + [Reading(p, now)];
      if |all| < 2 then Steady
      else match FirstBefore(all, now - ThreeHours)
        case None => Steady
        case Some(k) => TrendOfDiff(p - all[k].pressure)
  }

  /** After any call the history holds the current reading last, and only
      readings from the last six hours. */
  lemma HistoryIsRecent(h: History, p: int, now: int)
    requires !h.Unreadable?
    ensures var h' := HistoryAfter(h, p, now);
      h'.Readings? && |h'.readings| >= 1 && h'.readings[|h'.readings| - 1] == Reading(p, now) &&
      forall x :: x in h'.readings ==> x.timestamp > now - SixHours
  {
  }

  /** The stored readings of the last six hours. */
  function Kept(rs: seq<Reading>, now: int): seq<Reading> {
    After(rs, now - SixHours)
  }

  /** The trend compares against the earliest kept reading older than three
      hours, never against the current reading, so the "at least two readings"
      test decides nothing: without such a reading the result is Steady. */
  lemma {:induction false} TrendAgainstOldest(rs: seq<Reading>, p: int, now: int)
    ensures TrendOf(Readings(rs), p, now) ==
      match FirstBefore(Kept(rs, now), now - ThreeHours)
      case None => Steady
      case Some(k) => TrendOfDiff(p - Kept(rs, now)[k].pressure)
  {
    var kept := Kept(rs, now);
    var all := kept + [Reading(p, now)];
    FirstBeforeExtended(kept, Reading(p, now), now - ThreeHours);
    if |all| < 2 {
      assert kept == [];
    }
  }

  /** A reading that is not older than the cutoff, appended at the end, changes no `find`. */
  lemma {:induction false} FirstBeforeExtended(rs: seq<Reading>, x: Reading, cutoff: int)
    requires x.timestamp >= cutoff
    ensures FirstBefore(rs + [x], cutoff) == FirstBefore(rs, cutoff)
  {
    if rs == [] {
      assert FirstBefore([x][1..], cutoff) == None;
    } else {
      assert (rs + [x])[1..] == rs[1..] + [x];
      FirstBeforeExtended(rs[1..], x, cutoff);
    }
  }

  /** No occurrence is possible when the first character of `t` is absent from `s`. */
  lemma NotContains(s: string, t: string)
    requires |t| > 0 && forall i :: 0 <= i < |s| ==> s[i] != t[0]
    ensures !Contains(s, t)
  {
    forall i | 0 <= i <= |s| ensures !IsPrefix(t, s[i..]) {
      if i < |s| {
        assert s[i..][0] == s[i];
      }
    }
  }

  /** `getPressureTrendColor(trend)`, by substring. */
  function TrendColor(trend: string): string {
    if Contains(trend, "Rising") || Contains(trend, "\U{2B06}\U{FE0F}") then "var(--pressure-rising)"
    else if Contains(trend, "Falling") || Contains(trend, "\U{2B07}\U{FE0F}") then "var(--pressure-falling)"
    else "var(--pressure-steady)"
  }

  lemma TrendColors()
    ensures TrendColor(Rising) == "var(--pressure-rising)"
    ensures TrendColor(Falling) == "var(--pressure-falling)"
  {
    assert IsPrefix("Rising", Rising[3..]);
    assert IsPrefix("Falling", Falling[3..]);
    NotContains(Falling, "Rising");
    NotContains(Falling, "\U{2B06}\U{FE0F}");
  }

  // ---------------------------------------------------------------- sun times

  /** `formatSunTime(ts)`: a missing or zero timestamp gives "--:--"; otherwise
      the host's `toLocaleTimeString` of the instant, given as `format`. */
  function SunTime(ts: Option<int>, format: int -> string): (r: string)
    ensures ts.None? || ts == Some(0) ==> r == "--:--"
    ensures ts.Some? && ts.value != 0 ==> r == format(ts.value * 1000)
  {
    if ts.None? || ts.value == 0 then "--:--" else format(ts.value * 1000)
  }

  // ---------------------------------------------------------------- the component

  /** What the card shows: the conditions with their trend, marked stale or
      not, or the box of `showError(message)`, which replaces the template, so
      that the card's fields are no longer found. */
  datatype View =
    | Empty
    | Showing(current: Forecast.Current, trend: string, stale: bool)
    | Failure(message: string)
    | NoticedFailure(message: string)   // that box with the stale-data notice appended

  /** Whether the shadow root still holds the template. */
  predicate Templated(v: View) {
    !v.Failure? && !v.NoticedFailure?
  }

  /** The card after `updateDisplay(current, stale)` drew `trend`: with the
      template the fields show the conditions; without it nothing is found, and
      only the stale-data notice is added to the error box. */
  function Drawn(v: View, current: Forecast.Current, trend: string, stale: bool): (r: View)
    ensures Templated(v) <==> Templated(r)
    ensures Templated(v) ==> r == Showing(current, trend, stale)
    ensures !Templated(v) ==> r == if stale then NoticedFailure(v.message) else v
  {
    if Templated(v) then Showing(current, trend, stale)
    else if stale then NoticedFailure(v.message) else v
  }

  /** As written, an error box stays up through every later fetch. */
  lemma ErrorBoxSticks(v: View, current: Forecast.Current, trend: string, stale: bool)
    requires !Templated(v)
    ensures !Templated(Drawn(v, current, trend, stale))
    ensures Drawn(v, current, trend, stale).message == v.message
  {
  }

  class CurrentCard {
    var lastSuccessfulData: Option<Forecast.Current>
    var history: History
    var view: View

    /** The element, after `connectedCallback` has put the template in place. */
    constructor(stored: History)
      ensures lastSuccessfulData.None? && history == stored && view == Empty
    {
      lastSuccessfulData := None;
      history := stored;
      view := Empty;
    }

    /** `getPressureTrend(p)` at `now`: reads, prunes, extends and rewrites the history. */
    method PressureTrend(p: int, now: int) returns (trend: string)
      modifies this
      ensures trend == TrendOf(old(history), p, now)
      ensures history == HistoryAfter(old(history), p, now)
      ensures lastSuccessfulData == old(lastSuccessfulData) && view == old(view)
    {
      if history.Absent? {
        history := Readings([Reading(p, now)]);
        return Steady;
      }
      if history.Unreadable? {
        return Steady;
      }
      var all := After(history.readings, now - SixHours) + [Reading(p, now)];
      history := Readings(all);
      if |all| < 2 {
        return Steady;
      }
      var old_ := FirstBefore(all, now - ThreeHours);
      if old_.None? {
        return Steady;
      }
      trend := TrendOfDiff(p - all[old_.value].pressure);
    }

    /** `updateDisplay(current, stale)` with the template put back first when
        an error box has replaced it; drawing also records a pressure reading. */
    method UpdateDisplay(current: Forecast.Current, stale: bool, now: int)
      modifies this
      ensures view == Showing(current, TrendOf(old(history), current.pressure, now), stale)
      ensures history == HistoryAfter(old(history), current.pressure, now)
      ensures lastSuccessfulData == old(lastSuccessfulData)
    {
      if !Templated(view) {
        view := Empty;
      }
      var trend := PressureTrend(current.pressure, now);
      view := Drawn(view, current, trend, stale);
    }

    /** `updateDisplay(current, stale)` as written: the reading is recorded even
        when the fields are not found. */
    method UpdateDisplayAsWritten(current: Forecast.Current, stale: bool, now: int)
      modifies this
      ensures view == Drawn(old(view), current, TrendOf(old(history), current.pressure, now), stale)
      ensures history == HistoryAfter(old(history), current.pressure, now)
      ensures lastSuccessfulData == old(lastSuccessfulData)
    {
      var trend := PressureTrend(current.pressure, now);
      view := Drawn(view, current, trend, stale);
    }

    /** `fetchWeather()`, given how the fetch went: `data.current`, or the
        message of the error thrown; drawing goes through `UpdateDisplay`. */
    method FetchWeather(outcome: Result<Forecast.Current, string>, now: int)
      modifies this
      ensures outcome.Ok? ==> lastSuccessfulData == Some(outcome.value)
      ensures outcome.Ok? ==> view == Showing(outcome.value, TrendOf(old(history), outcome.value.pressure, now), false)
      ensures outcome.Ok? ==> history == HistoryAfter(old(history), outcome.value.pressure, now)
      ensures outcome.Err? ==> lastSuccessfulData == old(lastSuccessfulData)
      ensures outcome.Err? && old(lastSuccessfulData).Some? ==>
        view == Showing(old(lastSuccessfulData).value, TrendOf(old(history), old(lastSuccessfulData).value.pressure, now), true)
      ensures outcome.Err? && old(lastSuccessfulData).Some? ==>
        history == HistoryAfter(old(history), old(lastSuccessfulData).value.pressure, now)
      ensures outcome.Err? && old(lastSuccessfulData).None? ==>
        view == Failure("Weather unavailable: " + outcome.error) && history == old(history)
    {
      if outcome.Ok? {
        lastSuccessfulData := Some(outcome.value);
        UpdateDisplay(outcome.value, false, now);
      } else if lastSuccessfulData.Some? {
        UpdateDisplay(lastSuccessfulData.value, true, now);
      } else {
        view := Failure("Weather unavailable: " + outcome.error);
      }
    }

    /** `fetchWeather()` as written, drawing through `UpdateDisplayAsWritten`. */
    method FetchWeatherAsWritten(outcome: Result<Forecast.Current, string>, now: int)
      modifies this
      ensures outcome.Ok? ==> lastSuccessfulData == Some(outcome.value)
      ensures outcome.Ok? ==> view == Drawn(old(view), outcome.value, TrendOf(old(history), outcome.value.pressure, now), false)
      ensures outcome.Ok? ==> history == HistoryAfter(old(history), outcome.value.pressure, now)
      ensures outcome.Err? ==> lastSuccessfulData == old(lastSuccessfulData)
      ensures outcome.Err? && old(lastSuccessfulData).Some? ==>
        view == Drawn(old(view), old(lastSuccessfulData).value, TrendOf(old(history), old(lastSuccessfulData).value.pressure, now), true)
      ensures outcome.Err? && old(lastSuccessfulData).Some? ==>
        history == HistoryAfter(old(history), old(lastSuccessfulData).value.pressure, now)
      ensures outcome.Err? && old(lastSuccessfulData).None? ==>
        view == Failure("Weather unavailable: " + outcome.error) && history == old(history)
    {
      if outcome.Ok? {
        lastSuccessfulData := Some(outcome.value);
        UpdateDisplayAsWritten(outcome.value, false, now);
      } else if lastSuccessfulData.Some? {
        UpdateDisplayAsWritten(lastSuccessfulData.value, true, now);
      } else {
        view := Failure("Weather unavailable: " + outcome.error);
      }
    }
  }

  /** The discrepancy on one input: a first fetch that fails with nothing
      cached, then one that succeeds. As written the error box stays while the
      data is cached; with the template put back the conditions are shown. */
  method StuckAfterFirstFailure(stored: History, message: string, current: Forecast.Current, now: int)
    returns (asWritten: View, corrected: View)
    ensures asWritten == Failure("Weather unavailable: " + message)
    ensures corrected.Showing? && corrected.current == current && !corrected.stale
  {
    var c := new CurrentCard(stored);
    c.FetchWeatherAsWritten(Err(message), now);
    c.FetchWeatherAsWritten(Ok(current), now);
    asWritten := c.view;
    var d := new CurrentCard(stored);
    d.FetchWeather(Err(message), now);
    d.FetchWeather(Ok(current), now);
    corrected := d.view;
  }
}
