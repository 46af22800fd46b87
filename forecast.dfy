/** The forecast normaliser of the weather endpoint: a list of 3-hourly
    OpenWeatherMap samples becomes the current conditions, up to twelve hourly
    entries for the rest of today and up to three daily summaries.

    The clock is passed in: `now` and `todayEnd` (the last millisecond of the
    host's local day) are milliseconds since the epoch, and the `YYYY-MM-DD`
    key of an instant is its UTC day number (see `CivilTime.UtcDay`). */
module Forecast {
  import opened Common
  import opened CivilTime

  /** One element of the upstream `list`, with the fields the normaliser reads. */
  datatype Sample = Sample(
    dt: int,                // seconds since the epoch
    temp: real,             // main.temp
    humidity: int,          // main.humidity
    pressure: int,          // main.pressure
    windSpeed: real,        // wind.speed
    windDeg: Option<int>,   // wind.deg, None when absent
    pop: real,              // probability of precipitation, 0..1
    condition: string,      // weather[0].main
    icon: string)           // weather[0].icon

  /** The `city` part of the upstream reply. */
  datatype City = City(sunrise: int, sunset: int)

  /** An upstream reply; `list` and `city` are meaningful only when `ok`. */
  datatype Reply = Reply(ok: bool, status: nat, list: seq<Sample>, city: City)

  datatype Current = Current(
    temp: int, condition: string, humidity: int, windSpeed: int, windDir: Option<int>,
    aqi: Option<int>, pressure: int, pressureMb: int, sunrise: Option<int>, sunset: Option<int>)

  datatype Hourly = Hourly(
    time: int,              // the instant, in milliseconds
    temp: int, condition: string, icon: string, precipProbability: int, pressure: int, pressureMb: int)

  datatype Daily = Daily(
    date: int,              // UTC day number of the `YYYY-MM-DD` key
    high: int, low: int, precipMax: int, pressureAvg: int, condition: string)

  datatype Weather = Weather(current: Current, hourly: seq<Hourly>, daily: seq<Daily>)

  datatype WeatherError =
    | NoApiKey              // thrown before any request
    | ApiError(status: nat) // non-ok upstream status
    | NoSamples             // `data.list[0]` is undefined: reading `.main` of it throws
    | AverageNotAFunction   // the server copy calls `Math.average`, which does not exist
    | RequestFailed(message: string) // `fetch` or `response.json()` rejected

  /** The `TypeError` message of calling the missing `Math.average`. */
  const AverageMessage: string := "Math.average is not a function"

  function ErrorMessage(e: WeatherError): (m: string)
    ensures e.NoApiKey? ==> m == "OpenWeatherMap API key not configured"
    ensures e.ApiError? ==> m == "OpenWeatherMap API error: " + NatToString(e.status)
    ensures e.RequestFailed? ==> m == e.message
  {
    match e
    case NoApiKey => "OpenWeatherMap API key not configured"
    case ApiError(s) => "OpenWeatherMap API error: " + NatToString(s)
    case NoSamples => "Cannot read properties of undefined (reading 'main')"
    case AverageNotAFunction => AverageMessage
    case RequestFailed(message) => message
  }

  /** The message the route reports for the missing `Math.average`. */
  lemma AverageMessageText()
    ensures ErrorMessage(AverageNotAFunction) == "Math.average is not a function"
  {
  }

  // ---------------------------------------------------------------- current

  /** `deg || null`: a missing or zero direction is reported as null. */
  function WindDir(deg: Option<int>): (r: Option<int>)
    ensures r.None? <==> (deg.None? || deg.value == 0)
    ensures r.Some? ==> r == deg
  {
    if deg.Some? && deg.value != 0 then deg else None
  }

  /** The `current` block, built from the first sample; the sun times come from
      `city` when the caller reports them. */
  function CurrentOf(s: Sample, city: Option<City>): (c: Current)
    ensures c.temp == Round(s.temp) && c.windSpeed == Round(s.windSpeed)
    ensures c.pressure == c.pressureMb == s.pressure && c.humidity == s.humidity
    ensures c.aqi.None? && c.windDir == WindDir(s.windDeg) && c.condition == s.condition
    ensures c.sunrise.Some? <==> city.Some?
    ensures city.Some? ==> c.sunrise == Some(city.value.sunrise) && c.sunset == Some(city.value.sunset)
  {
    Current(Round(s.temp), s.condition, s.humidity, Round(s.windSpeed), WindDir(s.windDeg),
            None, s.pressure, s.pressure,
            if city.Some? then Some(city.value.sunrise) else None,
            if city.Some? then Some(city.value.sunset) else None)
  }

  // ---------------------------------------------------------------- hourly

  const MaxHourly := 12

  /** A sample strictly after `now` and no later than the end of the local day. */
  predicate LaterToday(s: Sample, now: int, todayEnd: int) {
    now < s.dt * 1000 <= todayEnd
  }

  /** The samples still to come today, in input order. */
  function Upcoming(xs: seq<Sample>, now: int, todayEnd: int): (r: seq<Sample>)
    ensures |r| <= |xs|
    ensures forall k :: 0 <= k < |r| ==> LaterToday(r[k], now, todayEnd) && r[k] in xs
  {
    if xs == [] then []
    else
      var last := xs[|xs| - 1];
      Upcoming(xs[..|xs| - 1], now, todayEnd) + (if LaterToday(last, now, todayEnd) then [last] else [])
  }

  lemma {:induction false} UpcomingAppend(xs: seq<Sample>, ys: seq<Sample>, now: int, todayEnd: int)
    ensures Upcoming(xs + ys, now, todayEnd) == Upcoming(xs, now, todayEnd) + Upcoming(ys, now, todayEnd)
    decreases |ys|
  {
    if ys != [] {
      var ys' := ys[..|ys| - 1];
      assert (xs + ys)[..|xs + ys| - 1] == xs + ys';
      UpcomingAppend(xs, ys', now, todayEnd);
    } else {
      assert xs + ys == xs;
    }
  }

  /** Every sample that is still to come today is kept, and nothing else. */
  lemma {:induction false} UpcomingMembers(xs: seq<Sample>, now: int, todayEnd: int, s: Sample)
    ensures s in Upcoming(xs, now, todayEnd) <==> s in xs && LaterToday(s, now, todayEnd)
  {
    if xs != [] {
      UpcomingMembers(xs[..|xs| - 1], now, todayEnd, s);
      assert xs == xs[..|xs| - 1] + [xs[|xs| - 1]];
    }
  }

  /** The hourly entry of one sample. */
  function HourOf(s: Sample): (h: Hourly)
    ensures h.time == s.dt * 1000 && h.temp == Round(s.temp) && h.precipProbability == Round(s.pop * 100.0)
    ensures h.condition == s.condition && h.icon == s.icon && h.pressure == h.pressureMb == s.pressure
  {
    Hourly(s.dt * 1000, Round(s.temp), s.condition, s.icon, Round(s.pop * 100.0), s.pressure, s.pressure)
  }

  function Hours(xs: seq<Sample>): (hs: seq<Hourly>)
    ensures |hs| == |xs| && forall k :: 0 <= k < |xs| ==> hs[k] == HourOf(xs[k])
  {
    seq(|xs|, k requires 0 <= k < |xs| => HourOf(xs[k]))
  }

  /** The `hourly` part: the first twelve of the samples to come today. */
  function HourlyOf(xs: seq<Sample>, now: int, todayEnd: int): seq<Hourly> {
    Hours(Take(Upcoming(xs, now, todayEnd), MaxHourly))
  }

  /** At most twelve entries, each for a sample after `now` and within today,
      and all of the upcoming samples when there are no more than twelve. */
  lemma HourlyBounds(xs: seq<Sample>, now: int, todayEnd: int)
    ensures |HourlyOf(xs, now, todayEnd)| <= MaxHourly
    ensures forall k :: 0 <= k < |HourlyOf(xs, now, todayEnd)| ==>
      now < HourlyOf(xs, now, todayEnd)[k].time <= todayEnd
    ensures |Upcoming(xs, now, todayEnd)| <= MaxHourly ==>
      HourlyOf(xs, now, todayEnd) == Hours(Upcoming(xs, now, todayEnd))
  {
    var up := Upcoming(xs, now, todayEnd);
    var t := Take(up, MaxHourly);
    assert forall k :: 0 <= k < |t| ==> t[k] == up[k];
  }

  /** The hourly loop: walk the list while fewer than twelve entries were pushed. */
  method CollectHourly(xs: seq<Sample>, now: int, todayEnd: int) returns (hourly: seq<Hourly>)
    ensures hourly == HourlyOf(xs, now, todayEnd)
  {
    hourly := [];
    var i := 0;
    while i < |xs| && |hourly| < MaxHourly
      invariant 0 <= i <= |xs|
      invariant hourly == Hours(Upcoming(xs[..i], now, todayEnd))
      invariant |hourly| <= MaxHourly
      decreases |xs| - i
    {
      var item := xs[i];
      assert xs[..i + 1][..i] == xs[..i];
      if LaterToday(item, now, todayEnd) {
        hourly := hourly + [HourOf(item)];
      }
      assert xs[..i + 1][i] == item;
      i := i + 1;
    }
    UpcomingAppend(xs[..i], xs[i..], now, todayEnd);
    assert xs[..i] + xs[i..] == xs;
  }

  // ---------------------------------------------------------------- distinct values

  /** `set.add(x)` on a `Set` kept as its insertion-ordered contents. */
  function AddDistinct<T(==,!new)>(xs: seq<T>, x: T): (r: seq<T>)
    ensures x in r && forall y :: y in r <==> y in xs || y == x
  {
    if x in xs then xs else xs + [x]
  }

  /** `Array.from(new Set(xs))`: each value once, in order of first appearance. */
  function Distinct<T(==,!new)>(xs: seq<T>): seq<T> {
    if xs == [] then [] else AddDistinct(Distinct(xs[..|xs| - 1]), xs[|xs| - 1])
  }

  predicate NoDuplicates<T(==,!new)>(xs: seq<T>) {
    forall i, j :: 0 <= i < j < |xs| ==> xs[i] != xs[j]
  }

  /** `Distinct` keeps every value, adds none and repeats none. */
  lemma {:induction false} DistinctProperties<T(!new)>(xs: seq<T>)
    ensures NoDuplicates(Distinct(xs))
    ensures forall y :: y in Distinct(xs) <==> y in xs
  {
    if xs != [] {
      var front := xs[..|xs| - 1];
      DistinctProperties(front);
      assert xs == front + [xs[|xs| - 1]];
    }
  }

  /** Values appear in order of their first occurrence: a value that occurs in
      the input before another value's first occurrence comes first. */
  lemma {:induction false} DistinctFirstAppearance<T(!new)>(xs: seq<T>, i: nat, j: nat)
    requires i < j < |xs| && xs[i] != xs[j] && xs[j] !in xs[..j]
    ensures xs[i] in Distinct(xs[..j]) && xs[j] !in Distinct(xs[..j])
    ensures Distinct(xs[..j + 1]) == Distinct(xs[..j]) + [xs[j]]
  {
    assert xs[..j + 1][..j] == xs[..j];
    DistinctProperties(xs[..j]);
    assert xs[i] == xs[..j][i];
  }

  // ---------------------------------------------------------------- grouping by day

  /** The UTC day whose `YYYY-MM-DD` key the sample is grouped under. */
  function DayOf(s: Sample): int {
    UtcDay(s.dt * 1000)
  }

  /** The days that have at least one sample. */
  function DaysOf(xs: seq<Sample>): set<int> {
    if xs == [] then {} else DaysOf(xs[..|xs| - 1]) + {DayOf(xs[|xs| - 1])}
  }

  lemma {:induction false} DaysOfMembers(xs: seq<Sample>, d: int)
    ensures d in DaysOf(xs) <==> exists k :: 0 <= k < |xs| && DayOf(xs[k]) == d
  {
    if xs != [] {
      var front := xs[..|xs| - 1];
      DaysOfMembers(front, d);
      if d in DaysOf(front) {
        var k :| 0 <= k < |front| && DayOf(front[k]) == d;
        assert xs[k] == front[k];
      }
      if exists k :: 0 <= k < |xs| && DayOf(xs[k]) == d {
        var k :| 0 <= k < |xs| && DayOf(xs[k]) == d;
        if k < |front| { assert front[k] == xs[k]; }
      }
    }
  }

  /** The samples of one day, in input order. */
  function SamplesOn(xs: seq<Sample>, d: int): (r: seq<Sample>)
    ensures forall k :: 0 <= k < |r| ==> DayOf(r[k]) == d && r[k] in xs
  {
    if xs == [] then []
    else
      var last := xs[|xs| - 1];
      SamplesOn(xs[..|xs| - 1], d) + (if DayOf(last) == d then [last] else [])
  }

  /** Every sample is in the group of its own day and in no other. */
  lemma {:induction false} SamplesOnMembers(xs: seq<Sample>, d: int, s: Sample)
    ensures s in SamplesOn(xs, d) <==> s in xs && DayOf(s) == d
  {
    if xs != [] {
      SamplesOnMembers(xs[..|xs| - 1], d, s);
      assert xs == xs[..|xs| - 1] + [xs[|xs| - 1]];
    }
  }

  /** A day has a non-empty group iff some sample falls on it. */
  lemma {:induction false} SamplesOnNonEmpty(xs: seq<Sample>, d: int)
    ensures SamplesOn(xs, d) != [] <==> d in DaysOf(xs)
  {
    if xs != [] {
      SamplesOnNonEmpty(xs[..|xs| - 1], d);
    }
  }

  /** What a `dailyMap` entry collects: the temperatures, the precipitation
      percentages `pop * 100`, the pressures and the set of conditions. */
  datatype DayGroup = DayGroup(temps: seq<real>, precip: seq<real>, pressures: seq<int>, conditions: seq<string>)

  const EmptyGroup := DayGroup([], [], [], [])

  /** The four `push`/`add` calls for one sample. */
  function AddSample(g: DayGroup, s: Sample): DayGroup {
    DayGroup(g.temps + [s.temp], g.precip + [s.pop * 100.0], g.pressures + [s.pressure],
             AddDistinct(g.conditions, s.condition))
  }

  function Conditions(ss: seq<Sample>): (cs: seq<string>)
    ensures |cs| == |ss| && forall k :: 0 <= k < |ss| ==> cs[k] == ss[k].condition
  {
    seq(|ss|, k requires 0 <= k < |ss| => ss[k].condition)
  }

  /** The group built from the samples of a day. */
  function GroupOf(ss: seq<Sample>): (g: DayGroup)
    ensures |g.temps| == |g.precip| == |g.pressures| == |ss|
    ensures forall k :: 0 <= k < |ss| ==>
      g.temps[k] == ss[k].temp && g.precip[k] == ss[k].pop * 100.0 && g.pressures[k] == ss[k].pressure
  {
    DayGroup(seq(|ss|, k requires 0 <= k < |ss| => ss[k].temp),
             seq(|ss|, k requires 0 <= k < |ss| => ss[k].pop * 100.0),
             seq(|ss|, k requires 0 <= k < |ss| => ss[k].pressure),
             Distinct(Conditions(ss)))
  }

  lemma GroupOfAppend(ss: seq<Sample>, s: Sample)
    ensures GroupOf(ss + [s]) == AddSample(GroupOf(ss), s)
  {
    assert Conditions(ss + [s])[..|ss|] == Conditions(ss);
  }

  /** `m` is the `dailyMap` of `xs`: one entry per day that has samples, holding
      the group of that day's samples. */
  predicate IsDailyMap(m: map<int, DayGroup>, xs: seq<Sample>) {
    m.Keys == DaysOf(xs) && forall d :: d in m ==> m[d] == GroupOf(SamplesOn(xs, d))
  }

  /** The day keys in order of first appearance, as `Object.keys` lists them. */
  function DayKeys(xs: seq<Sample>): seq<int> {
    if xs == [] then [] else AddDistinct(DayKeys(xs[..|xs| - 1]), DayOf(xs[|xs| - 1]))
  }

  lemma DaysOfAppend(xs: seq<Sample>, s: Sample)
    ensures DaysOf(xs + [s]) == DaysOf(xs) + {DayOf(s)}
  {
    assert (xs + [s])[..|xs|] == xs;
  }

  lemma SamplesOnAppend(xs: seq<Sample>, s: Sample, d: int)
    ensures SamplesOn(xs + [s], d) == SamplesOn(xs, d) + (if DayOf(s) == d then [s] else [])
  {
    assert (xs + [s])[..|xs|] == xs;
  }

  lemma DayKeysAppend(xs: seq<Sample>, s: Sample)
    ensures DayKeys(xs + [s]) == AddDistinct(DayKeys(xs), DayOf(s))
  {
    assert (xs + [s])[..|xs|] == xs;
  }

  lemma {:induction false} DayKeysProperties(xs: seq<Sample>)
    ensures NoDuplicates(DayKeys(xs))
    ensures forall d :: d in DayKeys(xs) <==> d in DaysOf(xs)
  {
    if xs != [] {
      var front := xs[..|xs| - 1];
      DayKeysProperties(front);
      assert xs == front + [xs[|xs| - 1]];
      DaysOfAppend(front, xs[|xs| - 1]);
    }
  }

  lemma KeysStep(m: map<int, DayGroup>, xs: seq<Sample>, s: Sample)
    requires IsDailyMap(m, xs)
    ensures DayKeys(xs + [s]) == if DayOf(s) in m then DayKeys(xs) else DayKeys(xs) + [DayOf(s)]
  {
    DayKeysProperties(xs);
    DayKeysAppend(xs, s);
  }

  /** One pass of the grouping loop keeps `IsDailyMap`. */
  lemma GroupsStep(m: map<int, DayGroup>, xs: seq<Sample>, s: Sample)
    requires IsDailyMap(m, xs)
    ensures IsDailyMap(m[DayOf(s) := AddSample(if DayOf(s) in m then m[DayOf(s)] else EmptyGroup, s)], xs + [s])
  {
    var g := if DayOf(s) in m then m[DayOf(s)] else EmptyGroup;
    var m' := m[DayOf(s) := AddSample(g, s)];
    DaysOfAppend(xs, s);
    assert m'.Keys == DaysOf(xs + [s]) by {
      assert m'.Keys == m.Keys + {DayOf(s)};
    }
    forall d | d in m' ensures m'[d] == GroupOf(SamplesOn(xs + [s], d)) {
      GroupAfterSample(m, xs, s, d);
    }
  }

  /** One day's group after a sample has been pushed. */
  lemma GroupAfterSample(m: map<int, DayGroup>, xs: seq<Sample>, s: Sample, d: int)
    requires IsDailyMap(m, xs) && (d in m || d == DayOf(s))
    ensures var g := if DayOf(s) in m then m[DayOf(s)] else EmptyGroup;
      m[DayOf(s) := AddSample(g, s)][d] == GroupOf(SamplesOn(xs + [s], d))
  {
    SamplesOnAppend(xs, s, d);
    if d == DayOf(s) {
      var g := if d in m then m[d] else EmptyGroup;
      assert g == GroupOf(SamplesOn(xs, d)) by {
        if d !in m {
          SamplesOnNonEmpty(xs, d);
          GroupOfEmpty();
        }
      }
      GroupOfAppend(SamplesOn(xs, d), s);
    } else {
      assert SamplesOn(xs + [s], d) == SamplesOn(xs, d);
    }
  }

  lemma GroupOfEmpty()
    ensures GroupOf([]) == EmptyGroup
  {
    assert GroupOf([]).temps == [];
  }

  /** The body of the grouping loop for one sample: create the day's entry if
      it is missing (recording the new key), then push the sample into it. */
  lemma CreateThenPush(m: map<int, DayGroup>, xs: seq<Sample>, s: Sample)
    requires IsDailyMap(m, xs)
    ensures var m1 := if DayOf(s) in m then m else m[DayOf(s) := EmptyGroup];
      IsDailyMap(m1[DayOf(s) := AddSample(m1[DayOf(s)], s)], xs + [s])
    ensures DayKeys(xs + [s]) == if DayOf(s) in m then DayKeys(xs) else DayKeys(xs) + [DayOf(s)]
  {
    var d := DayOf(s);
    var g := if d in m then m[d] else EmptyGroup;
    var m1 := if d in m then m else m[d := EmptyGroup];
    assert m1[d := AddSample(m1[d], s)] == m[d := AddSample(g, s)];
    GroupsStep(m, xs, s);
    KeysStep(m, xs, s);
  }

  /** The grouping loop: create a day's entry on its first sample, then push. */
  method GroupByDay(xs: seq<Sample>) returns (groups: map<int, DayGroup>, keys: seq<int>)
    ensures IsDailyMap(groups, xs)
    ensures keys == DayKeys(xs)
  {
    groups := map[];
    keys := [];
    var i := 0;
    while i < |xs|
      invariant 0 <= i <= |xs|
      invariant IsDailyMap(groups, xs[..i])
      invariant keys == DayKeys(xs[..i])
    {
      var item := xs[i];
      var d := DayOf(item);
      assert xs[..i + 1] == xs[..i] + [item];
      CreateThenPush(groups, xs[..i], item);
      if d !in groups {
        groups := groups[d := EmptyGroup];
        keys := keys + [d];
      }
      groups := groups[d := AddSample(groups[d], item)];
      i := i + 1;
    }
    assert xs[..i] == xs;
  }

  // ---------------------------------------------------------------- choosing the days

  predicate Increasing(s: seq<int>) {
    forall i, j :: 0 <= i < j < |s| ==> s[i] < s[j]
  }

  /** Insert a new key into an ascending list of keys. */
  function Insert(x: int, s: seq<int>): (r: seq<int>)
    requires Increasing(s) && x !in s
    ensures Increasing(r) && |r| == |s| + 1
    ensures forall y :: y in r <==> y in s || y == x
  {
    if s == [] then [x]
    else if x < s[0] then [x] + s
    else
      var rest := Insert(x, s[1..]);
      assert forall k :: 0 <= k < |rest| ==> s[0] < rest[k] by {
        forall k | 0 <= k < |rest| ensures s[0] < rest[k] {
          assert rest[k] in rest;
          if rest[k] != x {
            var i :| 0 <= i < |s[1..]| && s[1..][i] == rest[k];
            assert s[i + 1] == rest[k];
          }
        }
      }
      [s[0]] + rest
  }

  /** `Object.keys(dailyMap).sort()`: the keys are distinct ISO dates with
      four-digit years, whose text order is the order of their day numbers. */
  function SortDays(keys: seq<int>): (r: seq<int>)
    requires NoDuplicates(keys)
    ensures Increasing(r) && |r| == |keys|
    ensures forall y :: y in r <==> y in keys
  {
    if keys == [] then []
    else
      var front := keys[..|keys| - 1];
      assert forall y :: y in front ==> y != keys[|keys| - 1] by {
        forall y | y in front ensures y != keys[|keys| - 1] {
          var i :| 0 <= i < |front| && front[i] == y;
          assert keys[i] == y;
        }
      }
      Insert(keys[|keys| - 1], SortDays(front))
  }

  /** `dates.filter(date => date > today)`. */
  function Later(s: seq<int>, today: int): (r: seq<int>)
    ensures forall y :: y in r <==> y in s && y > today
    ensures Increasing(s) ==> Increasing(r)
  {
    if s == [] then []
    else
      var rest := Later(s[1..], today);
      assert Increasing(s) ==> forall k :: 0 <= k < |rest| ==> s[0] < rest[k] by {
        if Increasing(s) {
          forall k | 0 <= k < |rest| ensures s[0] < rest[k] {
            assert rest[k] in rest;
            var i :| 0 <= i < |s[1..]| && s[1..][i] == rest[k];
            assert s[i + 1] == rest[k];
          }
        }
      }
      (if s[0] > today then [s[0]] else []) + rest
  }

  const MaxDaily := 3

  /** The dates of the `daily` part: the first three keys after today. */
  function FutureDays(xs: seq<Sample>, today: int): (r: seq<int>)
    ensures |r| <= MaxDaily && Increasing(r)
    ensures forall k :: 0 <= k < |r| ==> r[k] in DaysOf(xs) && r[k] > today
  {
    DayKeysProperties(xs);
    var later := Later(SortDays(DayKeys(xs)), today);
    var r := Take(later, MaxDaily);
    assert forall k :: 0 <= k < |r| ==> r[k] == later[k];
    assert forall k :: 0 <= k < |r| ==> later[k] in later;
    r
  }

  /** The three (or fewer) chosen days are the earliest days after today that
      have samples: any other such day comes after all of them. */
  lemma FutureDaysAreEarliest(xs: seq<Sample>, today: int, d: int)
    requires d in DaysOf(xs) && d > today
    ensures d in FutureDays(xs, today) || (|FutureDays(xs, today)| == MaxDaily && FutureDays(xs, today)[MaxDaily - 1] < d)
  {
    DayKeysProperties(xs);
    var later := Later(SortDays(DayKeys(xs)), today);
    var k :| 0 <= k < |later| && later[k] == d;
    if k >= MaxDaily {
      assert FutureDays(xs, today) == later[..MaxDaily];
      assert later[MaxDaily - 1] < later[k];
    } else {
      assert FutureDays(xs, today)[k] == d;
    }
  }

  // ---------------------------------------------------------------- daily summaries

  /** `Math.max(...xs)` of a non-empty list. */
  function MaxOf(xs: seq<real>): (m: real)
    requires |xs| > 0
    ensures m in xs && forall k :: 0 <= k < |xs| ==> xs[k] <= m
  {
    if |xs| == 1 then xs[0]
    else
      var rest := MaxOf(xs[1..]);
      if xs[0] >= rest then xs[0] else rest
  }

  /** `Math.min(...xs)` of a non-empty list. */
  function MinOf(xs: seq<real>): (m: real)
    requires |xs| > 0
    ensures m in xs && forall k :: 0 <= k < |xs| ==> m <= xs[k]
  {
    if |xs| == 1 then xs[0]
    else
      var rest := MinOf(xs[1..]);
      if xs[0] <= rest then xs[0] else rest
  }

  /** `xs.reduce((a, b) => a + b, 0)`. */
  function Sum(xs: seq<int>): int {
    if xs == [] then 0 else Sum(xs[..|xs| - 1]) + xs[|xs| - 1]
  }

  lemma {:induction false} SumBounds(xs: seq<int>, lo: int, hi: int)
    requires forall k :: 0 <= k < |xs| ==> lo <= xs[k] <= hi
    ensures |xs| * lo <= Sum(xs) <= |xs| * hi
  {
    if xs != [] {
      SumBounds(xs[..|xs| - 1], lo, hi);
    }
  }

  /** The largest of the integer pressures: a bound in the proof about their
      mean, which the source computes; `MaxOf` models `Math.max` on readings. */
  ghost function MaxInt(xs: seq<int>): (m: int)
    requires |xs| > 0
    ensures m in xs && forall k :: 0 <= k < |xs| ==> xs[k] <= m
  {
    if |xs| == 1 then xs[0]
    else
      var rest := MaxInt(xs[1..]);
      if xs[0] >= rest then xs[0] else rest
  }

  /** The smallest of the integer pressures, the other bound of that proof. */
  ghost function MinInt(xs: seq<int>): (m: int)
    requires |xs| > 0
    ensures m in xs && forall k :: 0 <= k < |xs| ==> m <= xs[k]
  {
    if |xs| == 1 then xs[0]
    else
      var rest := MinInt(xs[1..]);
      if xs[0] <= rest then xs[0] else rest
  }

  lemma MeanBounds(sum: int, n: int, lo: int, hi: int)
    requires n > 0 && n * lo <= sum <= n * hi
    ensures lo as real <= sum as real / n as real <= hi as real
  {
    assert (n as real) * (lo as real) <= sum as real;
    assert sum as real <= (n as real) * (hi as real);
  }

  predicate Filled(g: DayGroup) {
    |g.temps| > 0 && |g.precip| > 0 && |g.pressures| > 0
  }

  /** One `daily` entry. The mean pressure's `|| 0` only matters for an empty
      list, which a group never is. */
  function Summarize(d: int, g: DayGroup): Daily
    requires Filled(g)
  {
    Daily(d, Round(MaxOf(g.temps)), Round(MinOf(g.temps)), Round(MaxOf(g.precip)),
          Round(Sum(g.pressures) as real / |g.pressures| as real), Join(g.conditions, ", "))
  }

  /** The summary of a day that has samples. */
  function SummaryOn(xs: seq<Sample>, d: int): Daily
    requires d in DaysOf(xs)
  {
    SamplesOnNonEmpty(xs, d);
    Summarize(d, GroupOf(SamplesOn(xs, d)))
  }

  /** The `daily` part. */
  function DailyOf(xs: seq<Sample>, today: int): (r: seq<Daily>)
    ensures |r| == |FutureDays(xs, today)|
    ensures forall k :: 0 <= k < |r| ==> r[k].date == FutureDays(xs, today)[k]
  {
    var days := FutureDays(xs, today);
    seq(|days|, k requires 0 <= k < |days| => SummaryOn(xs, days[k]))
  }

  /** The day's high and low are the rounded extremes of its temperatures: every
      sample's rounded temperature lies between them, and both are attained. */
  lemma SummaryTemperatures(xs: seq<Sample>, d: int)
    requires d in DaysOf(xs)
    ensures SummaryOn(xs, d).low <= SummaryOn(xs, d).high
    ensures forall s :: s in SamplesOn(xs, d) ==> SummaryOn(xs, d).low <= Round(s.temp) <= SummaryOn(xs, d).high
    ensures exists s :: s in SamplesOn(xs, d) && Round(s.temp) == SummaryOn(xs, d).high
    ensures exists s :: s in SamplesOn(xs, d) && Round(s.temp) == SummaryOn(xs, d).low
  {
    SamplesOnNonEmpty(xs, d);
    var ss := SamplesOn(xs, d);
    var g := GroupOf(ss);
    var hi := MaxOf(g.temps);
    var lo := MinOf(g.temps);
    RoundMonotone(lo, hi);
    forall s | s in ss ensures Round(lo) <= Round(s.temp) <= Round(hi) {
      var k :| 0 <= k < |ss| && ss[k] == s;
      assert g.temps[k] == s.temp;
      RoundMonotone(lo, s.temp);
      RoundMonotone(s.temp, hi);
    }
    var i :| 0 <= i < |g.temps| && g.temps[i] == hi;
    assert ss[i] in ss && Round(ss[i].temp) == Round(hi);
    var j :| 0 <= j < |g.temps| && g.temps[j] == lo;
    assert ss[j] in ss && Round(ss[j].temp) == Round(lo);
  }

  /** `precipMax` is the largest rounded precipitation percentage of the day. */
  lemma SummaryPrecipitation(xs: seq<Sample>, d: int)
    requires d in DaysOf(xs)
    ensures forall s :: s in SamplesOn(xs, d) ==> Round(s.pop * 100.0) <= SummaryOn(xs, d).precipMax
    ensures exists s :: s in SamplesOn(xs, d) && Round(s.pop * 100.0) == SummaryOn(xs, d).precipMax
  {
    SamplesOnNonEmpty(xs, d);
    var ss := SamplesOn(xs, d);
    var g := GroupOf(ss);
    var hi := MaxOf(g.precip);
    forall s | s in ss ensures Round(s.pop * 100.0) <= Round(hi) {
      var k :| 0 <= k < |ss| && ss[k] == s;
      assert g.precip[k] == s.pop * 100.0;
      RoundMonotone(s.pop * 100.0, hi);
    }
    var i :| 0 <= i < |g.precip| && g.precip[i] == hi;
    assert ss[i] in ss && Round(ss[i].pop * 100.0) == Round(hi);
  }

  /** The rounded mean pressure lies between the day's lowest and highest pressure. */
  lemma SummaryPressure(xs: seq<Sample>, d: int)
    requires d in DaysOf(xs)
    ensures exists s :: s in SamplesOn(xs, d) && s.pressure <= SummaryOn(xs, d).pressureAvg
    ensures exists s :: s in SamplesOn(xs, d) && SummaryOn(xs, d).pressureAvg <= s.pressure
  {
    SamplesOnNonEmpty(xs, d);
    var ss := SamplesOn(xs, d);
    var ps := GroupOf(ss).pressures;
    var lo := MinInt(ps);
    var hi := MaxInt(ps);
    SumBounds(ps, lo, hi);
    MeanBounds(Sum(ps), |ps|, lo, hi);
    var mean := Sum(ps) as real / |ps| as real;
    RoundMonotone(lo as real, mean);
    RoundMonotone(mean, hi as real);
    RoundOfInt(lo);
    RoundOfInt(hi);
    var i :| 0 <= i < |ps| && ps[i] == lo;
    assert ss[i] in ss && ss[i].pressure == lo;
    var j :| 0 <= j < |ps| && ps[j] == hi;
    assert ss[j] in ss && ss[j].pressure == hi;
  }

  /** The condition text lists each of the day's conditions once, in order of
      first appearance, separated by ", ". */
  lemma SummaryConditions(xs: seq<Sample>, d: int)
    requires d in DaysOf(xs)
    ensures SummaryOn(xs, d).condition == Join(Distinct(Conditions(SamplesOn(xs, d))), ", ")
    ensures NoDuplicates(Distinct(Conditions(SamplesOn(xs, d))))
    ensures forall c :: c in Distinct(Conditions(SamplesOn(xs, d))) <==> exists s :: s in SamplesOn(xs, d) && s.condition == c
  {
    var ss := SamplesOn(xs, d);
    var cs := Conditions(ss);
    DistinctProperties(cs);
    forall c ensures c in cs <==> exists s :: s in ss && s.condition == c {
      if c in cs {
        var k :| 0 <= k < |cs| && cs[k] == c;
        assert ss[k] in ss;
      }
      if exists s :: s in ss && s.condition == c {
        var s :| s in ss && s.condition == c;
        var k :| 0 <= k < |ss| && ss[k] == s;
        assert cs[k] == c;
      }
    }
  }

  /** A day with a single sample reports that sample's values. */
  lemma SingleSampleDay(xs: seq<Sample>, d: int, s: Sample)
    requires d in DaysOf(xs) && SamplesOn(xs, d) == [s]
    ensures SummaryOn(xs, d) == Daily(d, Round(s.temp), Round(s.temp), Round(s.pop * 100.0), s.pressure, s.condition)
  {
    var g := GroupOf([s]);
    GroupOfSingle(s);
    assert Sum([s.pressure]) == s.pressure by {
      assert [s.pressure][..0] == [];
    }
    MeanOfOne(s.pressure);
    RoundOfInt(s.pressure);
    assert SummaryOn(xs, d) == Summarize(d, g);
  }

  lemma GroupOfSingle(s: Sample)
    ensures GroupOf([s]) == DayGroup([s.temp], [s.pop * 100.0], [s.pressure], [s.condition])
  {
    var g := GroupOf([s]);
    assert g.temps == [s.temp];
    assert g.precip == [s.pop * 100.0];
    assert g.pressures == [s.pressure];
    assert Conditions([s]) == [s.condition];
    assert Distinct([s.condition]) == [s.condition] by {
      assert [s.condition][..0] == [];
    }
  }

  lemma MeanOfOne(p: int)
    ensures p as real / 1 as real == p as real
  {
  }

  // ---------------------------------------------------------------- the whole transform

  /** The final loop: summarise the first `Math.min(3, futureDates.length)` dates. */
  method BuildDaily(groups: map<int, DayGroup>, futureDates: seq<int>) returns (daily: seq<Daily>)
    requires forall k :: 0 <= k < |futureDates| ==> futureDates[k] in groups && Filled(groups[futureDates[k]])
    ensures |daily| == if |futureDates| < MaxDaily then |futureDates| else MaxDaily
    ensures forall k :: 0 <= k < |daily| ==> daily[k] == Summarize(futureDates[k], groups[futureDates[k]])
  {
    var n := if |futureDates| < MaxDaily then |futureDates| else MaxDaily;
    daily := [];
    var i := 0;
    while i < n
      invariant 0 <= i <= n && |daily| == i
      invariant forall k :: 0 <= k < i ==> daily[k] == Summarize(futureDates[k], groups[futureDates[k]])
    {
      var day := groups[futureDates[i]];
      daily := daily + [Summarize(futureDates[i], day)];
      i := i + 1;
    }
  }

  /** The `dailyMap` pass and the final loop of `getWeather`. */
  method CollectDaily(xs: seq<Sample>, today: int) returns (daily: seq<Daily>)
    ensures daily == DailyOf(xs, today)
  {
    var groups, keys := GroupByDay(xs);
    DayKeysProperties(xs);
    var dailyDates := SortDays(keys);
    var futureDates := Later(dailyDates, today);
    FutureDatesFilled(xs, groups, futureDates);
    daily := BuildDaily(groups, futureDates);
    DailyFromGroups(xs, today, groups, futureDates, daily);
  }

  lemma FutureDatesFilled(xs: seq<Sample>, groups: map<int, DayGroup>, futureDates: seq<int>)
    requires IsDailyMap(groups, xs)
    requires forall y :: y in futureDates ==> y in DaysOf(xs)
    ensures forall k :: 0 <= k < |futureDates| ==> futureDates[k] in groups && Filled(groups[futureDates[k]])
  {
    forall k | 0 <= k < |futureDates| ensures futureDates[k] in groups && Filled(groups[futureDates[k]]) {
      assert futureDates[k] in futureDates;
      SamplesOnNonEmpty(xs, futureDates[k]);
    }
  }

  lemma DailyFromGroups(xs: seq<Sample>, today: int, groups: map<int, DayGroup>, futureDates: seq<int>, daily: seq<Daily>)
    requires IsDailyMap(groups, xs) && NoDuplicates(DayKeys(xs))
    requires futureDates == Later(SortDays(DayKeys(xs)), today)
    requires forall k :: 0 <= k < |futureDates| ==> futureDates[k] in groups && Filled(groups[futureDates[k]])
    requires |daily| == if |futureDates| < MaxDaily then |futureDates| else MaxDaily
    requires forall k :: 0 <= k < |daily| ==> daily[k] == Summarize(futureDates[k], groups[futureDates[k]])
    ensures daily == DailyOf(xs, today)
  {
    var days := FutureDays(xs, today);
    assert days == Take(futureDates, MaxDaily);
    forall k | 0 <= k < |daily| ensures daily[k] == DailyOf(xs, today)[k] {
      assert days[k] == futureDates[k];
    }
  }

  /** The request URL; `encodeURIComponent` of the location is not modelled. */
  function ForecastUrl(location: string, apiKey: string): string {
    "https://api.openweathermap.org/data/2.5/forecast?q=" + location + "&units=imperial&appid=" + apiKey
  }

  /** What `getWeather` produces from an upstream reply. */
  function WeatherOf(reply: Reply, now: int, todayEnd: int): (r: Result<Weather, WeatherError>)
    ensures !reply.ok ==> r == Err(ApiError(reply.status))
    ensures reply.ok && reply.list == [] ==> r == Err(NoSamples)
    ensures r.Ok? ==> reply.ok && reply.list != [] && r.value.current == CurrentOf(reply.list[0], Some(reply.city))
  {
    if !reply.ok then Err(ApiError(reply.status))
    else if reply.list == [] then Err(NoSamples)
    else Ok(Weather(CurrentOf(reply.list[0], Some(reply.city)),
                    HourlyOf(reply.list, now, todayEnd),
                    DailyOf(reply.list, UtcDay(now))))
  }

  /** `getWeather(location, apiKey)` with the request made through `fetch`: a
      rejection propagates as it is; the URLs requested are returned alongside
      the result. */
  method GetWeather(location: string, apiKey: string, fetch: string -> Settled<Reply>, now: int, todayEnd: int)
    returns (r: Result<Weather, WeatherError>, requests: seq<string>)
    ensures apiKey == "" ==> r == Err(NoApiKey) && requests == []
    ensures apiKey != "" ==> requests == [ForecastUrl(location, apiKey)]
    ensures apiKey != "" && fetch(ForecastUrl(location, apiKey)).Rejected? ==>
      r == Err(RequestFailed(fetch(ForecastUrl(location, apiKey)).reason))
    ensures apiKey != "" && fetch(ForecastUrl(location, apiKey)).Resolved? ==>
      r == WeatherOf(fetch(ForecastUrl(location, apiKey)).value, now, todayEnd)
  {
    if apiKey == "" {
      return Err(NoApiKey), [];
    }
    var url := ForecastUrl(location, apiKey);
    requests := [url];
    var settled := fetch(url);
    if settled.Rejected? {
      return Err(RequestFailed(settled.reason)), requests;
    }
    var response := settled.value;
    if !response.ok {
      return Err(ApiError(response.status)), requests;
    }
    var list := response.list;
    if list == [] {
      return Err(NoSamples), requests;
    }
    var current := CurrentOf(list[0], Some(response.city));
    var hourly := CollectHourly(list, now, todayEnd);
    var daily := CollectDaily(list, UtcDay(now));
    r := Ok(Weather(current, hourly, daily));
  }

  // ---------------------------------------------------------------- the server.js copy

  /** The sorted day keys. */
  function SortedDays(xs: seq<Sample>): (r: seq<int>)
    ensures Increasing(r) && forall d :: d in r <==> d in DaysOf(xs)
  {
    DayKeysProperties(xs);
    SortDays(DayKeys(xs))
  }

  /** The earliest day with samples heads the sorted keys. */
  lemma EarliestIsHead(xs: seq<Sample>, first: int)
    requires first in DaysOf(xs) && forall e :: e in DaysOf(xs) ==> first <= e
    ensures |SortedDays(xs)| > 0 && SortedDays(xs)[0] == first
  {
    var sorted := SortedDays(xs);
    var i :| 0 <= i < |sorted| && sorted[i] == first;
    assert sorted[0] in sorted;
  }

  /** The server copy's days: the sorted keys at positions 1 to 3, whatever
      today is. */
  function ServerDays(xs: seq<Sample>): (r: seq<int>)
    ensures |r| <= MaxDaily && Increasing(r)
    ensures forall k :: 0 <= k < |r| ==> r[k] in DaysOf(xs)
    ensures |r| == if |SortedDays(xs)| <= 1 then 0 else if |SortedDays(xs)| - 1 < MaxDaily then |SortedDays(xs)| - 1 else MaxDaily
    ensures forall k :: 0 <= k < |r| ==> r[k] == SortedDays(xs)[k + 1]
  {
    var sorted := SortedDays(xs);
    if |sorted| <= 1 then []
    else
      var r := Take(sorted[1..], MaxDaily);
      assert forall k :: 0 <= k < |r| ==> r[k] == sorted[k + 1];
      assert forall k :: 0 <= k < |r| ==> r[k] in sorted;
      r
  }

  /** The server copy always drops the earliest day that has samples, and keeps
      the next three. */
  lemma ServerSkipsEarliestDay(xs: seq<Sample>, first: int, d: int)
    requires first in DaysOf(xs) && forall e :: e in DaysOf(xs) ==> first <= e
    requires d in DaysOf(xs) && d != first
    ensures first !in ServerDays(xs)
    ensures d in ServerDays(xs) || (|ServerDays(xs)| == MaxDaily && ServerDays(xs)[MaxDaily - 1] < d)
  {
    EarliestIsHead(xs, first);
    var sorted := SortedDays(xs);
    var j :| 0 <= j < |sorted| && sorted[j] == d;
    TailWindow(sorted, ServerDays(xs), j);
  }

  /** The window of positions 1 to `MaxDaily` of an ascending list leaves out
      its head and keeps, or passes below, every later element. */
  lemma TailWindow(sorted: seq<int>, r: seq<int>, j: int)
    requires Increasing(sorted) && 0 < j < |sorted|
    requires |r| == if |sorted| - 1 < MaxDaily then |sorted| - 1 else MaxDaily
    requires forall k :: 0 <= k < |r| ==> r[k] == sorted[k + 1]
    ensures sorted[0] !in r
    ensures sorted[j] in r || (|r| == MaxDaily && r[MaxDaily - 1] < sorted[j])
  {
    assert forall k :: 0 <= k < |r| ==> sorted[0] < r[k];
    if j - 1 < MaxDaily {
      assert r[j - 1] == sorted[j];
    } else {
      assert r[MaxDaily - 1] == sorted[MaxDaily] < sorted[j];
    }
  }

  /** When the earliest day with samples is today, the server copy picks the
      same days as `getWeather`. */
  lemma ServerMatchesWhenTodayIsEarliest(xs: seq<Sample>, today: int)
    requires today in DaysOf(xs) && forall e :: e in DaysOf(xs) ==> today <= e
    ensures ServerDays(xs) == FutureDays(xs, today)
  {
    EarliestIsHead(xs, today);
    LaterOfIncreasing(SortedDays(xs), today);
  }

  /** Filtering an ascending list whose head is the bound drops just the head. */
  lemma LaterOfIncreasing(s: seq<int>, today: int)
    requires Increasing(s) && |s| > 0 && s[0] == today
    ensures Later(s, today) == s[1..]
  {
    AllLater(s[1..], today);
  }

  lemma {:induction false} AllLater(s: seq<int>, today: int)
    requires forall k :: 0 <= k < |s| ==> s[k] > today
    ensures Later(s, today) == s
  {
    if s != [] {
      AllLater(s[1..], today);
    }
  }

  /** ... and when no sample falls on today or earlier, `getWeather` shows the
      earliest day while the server copy does not. */
  lemma ServerDiffersWithoutToday(xs: seq<Sample>, today: int, first: int)
    requires first in DaysOf(xs) && forall e :: e in DaysOf(xs) ==> today < first <= e
    ensures first in FutureDays(xs, today) && first !in ServerDays(xs)
  {
    EarliestIsHead(xs, first);
    var sorted := SortedDays(xs);
    assert forall k :: 0 <= k < |sorted| ==> sorted[k] > today by {
      forall k | 0 <= k < |sorted| ensures sorted[k] > today { assert sorted[k] in sorted; }
    }
    AllLater(sorted, today);
    assert FutureDays(xs, today)[0] == first;
    HeadOutsideWindow(sorted, ServerDays(xs));
  }

  /** The head of an ascending list is not among its later elements. */
  lemma HeadOutsideWindow(sorted: seq<int>, r: seq<int>)
    requires Increasing(sorted) && |sorted| > 0 && |r| < |sorted|
    requires forall k :: 0 <= k < |r| ==> r[k] == sorted[k + 1]
    ensures sorted[0] !in r
  {
    assert forall k :: 0 <= k < |r| ==> sorted[0] < r[k];
  }

  /** The server copy's daily loop as written: its first iteration evaluates
      `Math.average(...)`, which throws, so any second day key fails the route. */
  function ServerDailyAsWritten(xs: seq<Sample>): Result<seq<Daily>, WeatherError> {
    if ServerDays(xs) == [] then Ok([]) else Err(AverageNotAFunction)
  }

  lemma ServerDailyAsWrittenFails(xs: seq<Sample>)
    ensures ServerDailyAsWritten(xs).Err? <==>
      exists d1, d2 :: d1 in DaysOf(xs) && d2 in DaysOf(xs) && d1 != d2
  {
    if exists d1, d2 :: d1 in DaysOf(xs) && d2 in DaysOf(xs) && d1 != d2 {
      TwoDaysGiveServerDays(xs);
    }
    if ServerDays(xs) != [] {
      ServerDaysNeedTwoDays(xs);
    }
  }

  lemma ServerDaysNeedTwoDays(xs: seq<Sample>)
    requires ServerDays(xs) != []
    ensures exists d1, d2 :: d1 in DaysOf(xs) && d2 in DaysOf(xs) && d1 != d2
  {
    var sorted := SortedDays(xs);
    assert sorted[0] in sorted && sorted[1] in sorted;
    assert sorted[0] in DaysOf(xs) && sorted[1] in DaysOf(xs) && sorted[0] != sorted[1];
  }

  lemma TwoDaysGiveServerDays(xs: seq<Sample>)
    requires exists d1, d2 :: d1 in DaysOf(xs) && d2 in DaysOf(xs) && d1 != d2
    ensures ServerDays(xs) != []
  {
    var sorted := SortedDays(xs);
    var d1, d2 :| d1 in DaysOf(xs) && d2 in DaysOf(xs) && d1 != d2;
    var i :| 0 <= i < |sorted| && sorted[i] == d1;
    var j :| 0 <= j < |sorted| && sorted[j] == d2;
    assert i != j;
  }

  /** The evidently intended server copy: the same summaries as `getWeather`,
      pressure averaged, for the server's choice of days. */
  function ServerDaily(xs: seq<Sample>): (r: seq<Daily>)
    ensures |r| == |ServerDays(xs)|
    ensures forall k :: 0 <= k < |r| ==> r[k].date == ServerDays(xs)[k]
  {
    var days := ServerDays(xs);
    seq(|days|, k requires 0 <= k < |days| => SummaryOn(xs, days[k]))
  }

  /** When the earliest day is today, the corrected server copy agrees with `getWeather`. */
  lemma ServerDailyMatches(xs: seq<Sample>, today: int)
    requires today in DaysOf(xs) && forall e :: e in DaysOf(xs) ==> today <= e
    ensures ServerDaily(xs) == DailyOf(xs, today)
  {
    ServerMatchesWhenTodayIsEarliest(xs, today);
  }

  /** The route's transform as written, and as evidently intended. */
  function ServerWeatherAsWritten(reply: Reply, now: int, todayEnd: int): (r: Result<Weather, WeatherError>)
    ensures r.Ok? ==> reply.ok && reply.list != [] && ServerDays(reply.list) == [] && r.value.daily == []
  {
    if !reply.ok then Err(ApiError(reply.status))
    else if reply.list == [] then Err(NoSamples)
    else match ServerDailyAsWritten(reply.list)
      case Err(e) => Err(e)
      case Ok(daily) => Ok(Weather(CurrentOf(reply.list[0], None), HourlyOf(reply.list, now, todayEnd), daily))
  }

  /** As written, every usable reply spanning two or more UTC dates fails with the `Math.average` error. */
  lemma ServerWeatherAsWrittenFails(reply: Reply, now: int, todayEnd: int, d1: int, d2: int)
    requires reply.ok && reply.list != []
    requires d1 in DaysOf(reply.list) && d2 in DaysOf(reply.list) && d1 != d2
    ensures ServerWeatherAsWritten(reply, now, todayEnd) == Err(AverageNotAFunction)
  {
    TwoDaysGiveServerDays(reply.list);
  }

  function ServerWeather(reply: Reply, now: int, todayEnd: int): (r: Result<Weather, WeatherError>)
    ensures !reply.ok ==> r == Err(ApiError(reply.status))
    ensures reply.ok && reply.list == [] ==> r == Err(NoSamples)
    ensures r.Ok? ==> r.value.current.sunrise.None? && r.value.hourly == HourlyOf(reply.list, now, todayEnd)
  {
    if !reply.ok then Err(ApiError(reply.status))
    else if reply.list == [] then Err(NoSamples)
    else Ok(Weather(CurrentOf(reply.list[0], None), HourlyOf(reply.list, now, todayEnd), ServerDaily(reply.list)))
  }

  /** The corrected server daily loop: positions 1 to `Math.min(4, n) - 1` of the
      sorted keys. */
  method ServerCollectDaily(xs: seq<Sample>) returns (daily: seq<Daily>)
    ensures daily == ServerDaily(xs)
  {
    var groups, keys := GroupByDay(xs);
    DayKeysProperties(xs);
    var dailyDates := SortDays(keys);
    assert dailyDates == SortedDays(xs);
    var rest := if |dailyDates| <= 1 then [] else dailyDates[1..];
    assert forall y :: y in rest ==> y in dailyDates;
    FutureDatesFilled(xs, groups, rest);
    daily := BuildDaily(groups, rest);
    ServerDailyFromGroups(xs, groups, rest, daily);
  }

  lemma ServerDailyFromGroups(xs: seq<Sample>, groups: map<int, DayGroup>, rest: seq<int>, daily: seq<Daily>)
    requires IsDailyMap(groups, xs)
    requires rest == if |SortedDays(xs)| <= 1 then [] else SortedDays(xs)[1..]
    requires forall k :: 0 <= k < |rest| ==> rest[k] in groups && Filled(groups[rest[k]])
    requires |daily| == if |rest| < MaxDaily then |rest| else MaxDaily
    requires forall k :: 0 <= k < |daily| ==> daily[k] == Summarize(rest[k], groups[rest[k]])
    ensures daily == ServerDaily(xs)
  {
    var days := ServerDays(xs);
    forall k | 0 <= k < |daily| ensures daily[k] == ServerDaily(xs)[k] {
      assert days[k] == rest[k];
      SummaryFromMap(xs, groups, rest[k]);
    }
  }

  /** A filled group of the day map summarises as its day's samples do. */
  lemma SummaryFromMap(xs: seq<Sample>, groups: map<int, DayGroup>, d: int)
    requires IsDailyMap(groups, xs) && d in groups && Filled(groups[d])
    ensures d in DaysOf(xs) && Summarize(d, groups[d]) == SummaryOn(xs, d)
  {
    var g := groups[d];
    assert g == GroupOf(SamplesOn(xs, d));
  }
}
