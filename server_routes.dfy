/** The proxy routes of server.js: `/api/weather`, `/api/calendar/events` and
    `/api/prometheus/query`. A route answers a status code and a JSON body,
    which is either the payload or `{ error: message }`. Upstream replies are
    oracles; the environment variables are parameters, with "" for unset. */
module ServerRoutes {
  import opened Common
  import Forecast
  import CalDav
  import ICal

  /** A status code and a body: `Ok(payload)` or `Err(message)` for `{ error: message }`. */
  datatype Response<T> = Response(status: nat, body: Result<T, string>)

  // ---------------------------------------------------------------- /api/weather

  /** `req.query.location || process.env.VITE_OPENWEATHERMAP_LOCATION || 'Seattle,US'`. */
  function Location(query: string, env: string): (r: string)
    ensures r != ""
    ensures r == query || r == env || r == "Seattle,US"
    ensures query != "" ==> r == query
  {
    if query != "" then query else if env != "" then env else "Seattle,US"
  }

  /** A caught error answers 500 with its message. */
  function WeatherAnswer(w: Result<Forecast.Weather, Forecast.WeatherError>): (r: Response<Forecast.Weather>)
    ensures r.status == 200 <==> w.Ok?
    ensures w.Ok? ==> r.body == Ok(w.value)
    ensures w.Err? ==> r == Response(500, Err(Forecast.ErrorMessage(w.error)))
  {
    match w
    case Ok(v) => Response(200, Ok(v))
    case Err(e) => Response(500, Err(Forecast.ErrorMessage(e)))
  }

  /** The weather route with the daily average computed; a rejected request
      is caught like any other error. */
  function WeatherResponse(query: string, env: string, apiKey: string, fetch: string -> Settled<Forecast.Reply>,
                           now: int, todayEnd: int): Response<Forecast.Weather>
  {
    if apiKey == "" then Response(400, Err(Forecast.ErrorMessage(Forecast.NoApiKey)))
    else match fetch(Forecast.ForecastUrl(Location(query, env), apiKey))
      case Rejected(m) => Response(500, Err(m))
      case Resolved(reply) => WeatherAnswer(Forecast.ServerWeather(reply, now, todayEnd))
  }

  /** The weather route as written, where `pressureAvg` calls `Math.average`. */
  function WeatherResponseAsWritten(query: string, env: string, apiKey: string, fetch: string -> Settled<Forecast.Reply>,
                                    now: int, todayEnd: int): Response<Forecast.Weather>
  {
    if apiKey == "" then Response(400, Err(Forecast.ErrorMessage(Forecast.NoApiKey)))
    else match fetch(Forecast.ForecastUrl(Location(query, env), apiKey))
      case Rejected(m) => Response(500, Err(m))
      case Resolved(reply) => WeatherAnswer(Forecast.ServerWeatherAsWritten(reply, now, todayEnd))
  }

  method WeatherRoute(query: string, env: string, apiKey: string, fetch: string -> Settled<Forecast.Reply>, now: int, todayEnd: int)
    returns (response: Response<Forecast.Weather>, requests: seq<string>)
    ensures response == WeatherResponse(query, env, apiKey, fetch, now, todayEnd)
    ensures apiKey == "" ==> requests == []
    ensures apiKey != "" ==> requests == [Forecast.ForecastUrl(Location(query, env), apiKey)]
  {
    if apiKey == "" {
      return Response(400, Err("OpenWeatherMap API key not configured")), [];
    }
    var url := Forecast.ForecastUrl(Location(query, env), apiKey);
    requests := [url];
    var settled := fetch(url);
    if settled.Rejected? {
      return Response(500, Err(settled.reason)), requests;
    }
    var reply := settled.value;
    if !reply.ok {
      return Response(500, Err(Forecast.ErrorMessage(Forecast.ApiError(reply.status)))), requests;
    }
    if reply.list == [] {
      return Response(500, Err(Forecast.ErrorMessage(Forecast.NoSamples))), requests;
    }
    var current := Forecast.CurrentOf(reply.list[0], None);
    var hourly := Forecast.CollectHourly(reply.list, now, todayEnd);
    var daily := Forecast.ServerCollectDaily(reply.list);
    response := Response(200, Ok(Forecast.Weather(current, hourly, daily)));
  }

  /** The status codes of the weather route: 400 exactly when the key is
      missing, 200 exactly when the upstream reply is usable, and 500 with the
      rejection's message when the request rejects. */
  lemma WeatherRouteStatus(query: string, env: string, apiKey: string, fetch: string -> Settled<Forecast.Reply>, now: int, todayEnd: int)
    ensures var r := WeatherResponse(query, env, apiKey, fetch, now, todayEnd);
      var settled := fetch(Forecast.ForecastUrl(Location(query, env), apiKey));
      (r.status == 400 <==> apiKey == "") &&
      (r.status == 200 <==> apiKey != "" && settled.Resolved? && settled.value.ok && settled.value.list != []) &&
      (r.status == 400 || r.status == 200 || r.status == 500) &&
      (apiKey != "" && settled.Rejected? ==> r == Response(500, Err(settled.reason))) &&
      (apiKey != "" && settled.Resolved? && !settled.value.ok ==>
        r.body == Err("OpenWeatherMap API error: " + NatToString(settled.value.status)))
  {
  }

  /** As written, the route answers 500 "Math.average is not a function" for
      every usable reply that spans two or more UTC dates. */
  lemma WeatherRouteAsWrittenFails(query: string, env: string, apiKey: string, fetch: string -> Settled<Forecast.Reply>, now: int, todayEnd: int)
    requires apiKey != ""
    requires var settled := fetch(Forecast.ForecastUrl(Location(query, env), apiKey));
      settled.Resolved? && settled.value.ok && settled.value.list != [] &&
      exists d1, d2 :: d1 in Forecast.DaysOf(settled.value.list) && d2 in Forecast.DaysOf(settled.value.list) && d1 != d2
    ensures WeatherResponseAsWritten(query, env, apiKey, fetch, now, todayEnd) == Response(500, Err(Forecast.ErrorMessage(Forecast.AverageNotAFunction)))
  {
    var reply := fetch(Forecast.ForecastUrl(Location(query, env), apiKey)).value;
    var d1, d2 :| d1 in Forecast.DaysOf(reply.list) && d2 in Forecast.DaysOf(reply.list) && d1 != d2;
    Forecast.ServerWeatherAsWrittenFails(reply, now, todayEnd, d1, d2);
  }

  /** With a single UTC date in the reply the route as written and the
      corrected one answer the same. */
  lemma WeatherRouteAsWrittenSingleDay(query: string, env: string, apiKey: string, fetch: string -> Settled<Forecast.Reply>, now: int, todayEnd: int)
    requires var settled := fetch(Forecast.ForecastUrl(Location(query, env), apiKey));
      settled.Resolved? ==>
        forall d1, d2 :: d1 in Forecast.DaysOf(settled.value.list) && d2 in Forecast.DaysOf(settled.value.list) ==> d1 == d2
    ensures WeatherResponseAsWritten(query, env, apiKey, fetch, now, todayEnd) == WeatherResponse(query, env, apiKey, fetch, now, todayEnd)
  {
    var settled := fetch(Forecast.ForecastUrl(Location(query, env), apiKey));
    if settled.Resolved? && Forecast.ServerDays(settled.value.list) != [] {
      Forecast.ServerDaysNeedTwoDays(settled.value.list);
    }
  }

  // ---------------------------------------------------------------- /api/calendar/events

  /** `req.query.date || 'today'`. */
  function DateKeyword(query: string): (r: string)
    ensures r != "" && (query != "" ==> r == query)
  {
    if query != "" then query else "today"
  }

  function CalendarResponse(query: string, url: string, user: string, password: string, now: int, offset: int,
                            discover: string -> Settled<CalDav.DiscoveryReply>, report: CalDav.ReportOracle): Response<seq<ICal.Event>>
  {
    match CalDav.CalendarEvents(url, user, password, DateKeyword(query), now, offset, discover, report)
    case Ok(evs) => Response(200, Ok(evs))
    case Err(e) => Response(if e.NoCredentials? then 400 else 500, Err(CalDav.CalendarErrorMessage(e)))
  }

  method CalendarRoute(query: string, url: string, user: string, password: string, now: int, offset: int,
                       discover: string -> Settled<CalDav.DiscoveryReply>, report: CalDav.ReportOracle)
    returns (response: Response<seq<ICal.Event>>, requests: seq<string>)
    ensures response == CalendarResponse(query, url, user, password, now, offset, discover, report)
    ensures requests == CalDav.Requests(url, user, password, DateKeyword(query), now, offset, discover, report)
  {
    var r;
    r, requests := CalDav.GetCalendarEvents(url, user, password, DateKeyword(query), now, offset, discover, report);
    match r
    case Ok(evs) =>
      response := Response(200, Ok(evs));
    case Err(e) =>
      response := Response(if e.NoCredentials? then 400 else 500, Err(CalDav.CalendarErrorMessage(e)));
  }

  /** Missing credentials answer 400 before any request; a rejected request
      answers 500 with the rejection's message, a failed discovery 500 with
      its status; otherwise the events come back sorted. */
  lemma CalendarRouteStatus(query: string, url: string, user: string, password: string, now: int, offset: int,
                            discover: string -> Settled<CalDav.DiscoveryReply>, report: CalDav.ReportOracle)
    ensures var r := CalendarResponse(query, url, user, password, now, offset, discover, report);
      var settled := discover(CalDav.DiscoveryUrl(url, user));
      var missing := CalDav.CredentialsMissing(url, user, password);
      (r.status == 400 <==> missing) &&
      (r.status == 400 ==> CalDav.Requests(url, user, password, DateKeyword(query), now, offset, discover, report) == [] &&
                           r.body == Err("Nextcloud credentials not configured")) &&
      (r.status == 200 || r.status == 400 || r.status == 500) &&
      (!missing && settled.Rejected? ==> r == Response(500, Err(settled.reason))) &&
      (!missing && settled.Resolved? && !settled.value.ok ==>
        r == Response(500, Err("CalDAV discovery failed: " + NatToString(settled.value.status)))) &&
      (r.status == 200 ==> r.body.Ok? && CalDav.AllValid(r.body.value) && CalDav.SortedByStart(r.body.value, offset))
  {
  }

  /** Once discovery succeeds, the first REPORT that rejects answers 500 with
      its message, and no calendar after it is asked. */
  lemma CalendarRouteRejection(query: string, url: string, user: string, password: string, now: int, offset: int,
                               discover: string -> Settled<CalDav.DiscoveryReply>, report: CalDav.ReportOracle, k: nat)
    requires !CalDav.CredentialsMissing(url, user, password)
    requires discover(CalDav.DiscoveryUrl(url, user)).Resolved? && discover(CalDav.DiscoveryUrl(url, user)).value.ok
    requires var calendars := CalDav.CalendarsOf(discover(CalDav.DiscoveryUrl(url, user)).value.entries, user);
      var w := CalDav.WindowOf(DateKeyword(query), now, offset);
      k < |calendars| && CalDav.Rejects(calendars[k], url, w, report) &&
      forall j :: 0 <= j < k ==> !CalDav.Rejects(calendars[j], url, w, report)
    ensures var calendars := CalDav.CalendarsOf(discover(CalDav.DiscoveryUrl(url, user)).value.entries, user);
      var w := CalDav.WindowOf(DateKeyword(query), now, offset);
      CalendarResponse(query, url, user, password, now, offset, discover, report) ==
        Response(500, Err(report(url + calendars[k].href, w.start, w.end).reason)) &&
      CalDav.Requests(url, user, password, DateKeyword(query), now, offset, discover, report) ==
        [CalDav.DiscoveryUrl(url, user)] + CalDav.ReportUrls(url, calendars[..k + 1])
  {
    CalDav.CalendarRejection(url, user, password, DateKeyword(query), now, offset, discover, report, k);
  }

  // ---------------------------------------------------------------- /api/prometheus/query

  datatype PrometheusReply = PrometheusReply(ok: bool, status: nat, data: string)

  /** `${prometheusUrl}/api/v1/query?query=${query}`. */
  function PrometheusUrl(prometheusUrl: string, query: string): string {
    prometheusUrl + "/api/v1/query?query=" + query
  }

  /** The query parameter is checked before the configured URL. The reply's
      JSON is passed through as it came; a rejected request is caught like any
      other error. */
  function PrometheusResponse(query: string, prometheusUrl: string, fetch: string -> Settled<PrometheusReply>): (r: Response<string>)
    ensures query == "" ==> r == Response(400, Err("Missing query parameter"))
    ensures query != "" && prometheusUrl == "" ==> r == Response(400, Err("Prometheus URL not configured"))
  {
    if query == "" then Response(400, Err("Missing query parameter"))
    else if prometheusUrl == "" then Response(400, Err("Prometheus URL not configured"))
    else match fetch(PrometheusUrl(prometheusUrl, query))
      case Rejected(m) => Response(500, Err(m))
      case Resolved(reply) =>
        if !reply.ok then Response(500, Err("Prometheus error: " + NatToString(reply.status)))
        else Response(200, Ok(reply.data))
  }

  /** The URL fetched, if any. */
  function PrometheusRequests(query: string, prometheusUrl: string): (r: seq<string>)
    ensures r == [] <==> query == "" || prometheusUrl == ""
  {
    if query == "" || prometheusUrl == "" then [] else [PrometheusUrl(prometheusUrl, query)]
  }

  /** A 400 answer is given exactly when no request is made; every other answer
      is that of the one request to the configured server. */
  lemma PrometheusRequestsMade(query: string, prometheusUrl: string, fetch: string -> Settled<PrometheusReply>)
    ensures var r := PrometheusResponse(query, prometheusUrl, fetch);
      (r.status == 400 <==> PrometheusRequests(query, prometheusUrl) == []) &&
      (r.status != 400 ==> PrometheusRequests(query, prometheusUrl) == [PrometheusUrl(prometheusUrl, query)])
  {
  }

  /** A 200 answer passes the upstream body through; with both inputs present
      the answer is 200 exactly when the upstream reply is ok, and 500 with the
      message of a rejection or with the status of a non-ok reply otherwise. */
  lemma PrometheusPassThrough(query: string, prometheusUrl: string, fetch: string -> Settled<PrometheusReply>)
    requires query != "" && prometheusUrl != ""
    ensures var r := PrometheusResponse(query, prometheusUrl, fetch);
      var settled := fetch(PrometheusUrl(prometheusUrl, query));
      (r.status == 200 <==> settled.Resolved? && settled.value.ok) &&
      (settled.Rejected? ==> r == Response(500, Err(settled.reason))) &&
      (settled.Resolved? && settled.value.ok ==> r.body == Ok(settled.value.data)) &&
      (settled.Resolved? && !settled.value.ok ==>
        r == Response(500, Err("Prometheus error: " + NatToString(settled.value.status))))
  {
  }
}
