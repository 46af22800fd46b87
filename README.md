# Home dashboards: a verified model of the kiosk's logic

The home dashboards are a wall-mounted kiosk web application. It shows morning and night dashboards with the weather, calendar events and the health of a three-node Kubernetes cluster. A small Express server proxies the upstream services: OpenWeatherMap, a Nextcloud CalDAV server and Prometheus. This project models in Dafny the sequential logic the kiosk is built on, and proves what that logic promises:

- the forecast normaliser, which turns 3-hourly samples into `current`, `hourly` and `daily` parts, in both the client copy and the server copy;
- the iCalendar event and date reader;
- the CalDAV aggregation: the date window, the collection filter and names, the time-range stamp, REPORTs that skip on failure, and the merge sorted by start;
- the proxy routes for weather, calendar and Prometheus;
- the classification of nodes and metrics, the percentage clamping, per-node error isolation and the last-good cache of the two cluster components;
- the AQI bands, the icon tables and the pressure-trend history of the weather cards, and the today/tomorrow split of the older forecast table;
- the small stateful controllers: the refresh manager, the shared retry policy of every component, screensaver idle detection and the configuration manager.

## How the model is organised

- Language: the source is JavaScript.
- Modules: one module per source file, and one `.dfy` file per module.
  - Shared vocabulary: `Common` and `CivilTime`.
  - Files with two copies: `Forecast` covers `getWeather` and the server's copy of it; `ICal` covers the iCalendar parser and its server copy.
  - One module each for the rest: `CalDav`, `ServerRoutes`, `Infrastructure`, `InfrastructureStatus`, `WeatherCurrent`, `WeatherLegacy`, `Refresh`, `BaseComponent`, `Screensaver` and `Config`.
- Pure functions become Dafny functions.
- Loops that push into arrays or fill dictionaries become methods with loop invariants. Each such method is proved equal to a specification function, and the properties are proved about that function.
- Objects whose methods update fields become classes. Their methods carry `modifies this` and state the whole new state:
  - `RefreshManager`
  - `DashboardComponent`
  - `DashboardScreensaver`
  - `ConfigManager`
  - the weather cards
  - the status panel
- Inputs from outside the program are parameters:
  - Network: every `fetch` is an oracle function from the URL to how the request settled (`Settled`): rejected with a message, or resolved with the decoded reply. A method also returns the URLs it requested.
  - Clock: the current time `now` is in milliseconds since the epoch.
  - Environment and configuration values: `""` stands for a missing or falsy value.
  - Host time zone: a fixed offset (local minus UTC, in milliseconds).
  - Browser storage: a value (`History`); "unreadable" stands for a failed `JSON.parse`.
- Dates:
  - Upstream dates are UTC day numbers; comparing two day numbers is the same as comparing their ISO `YYYY-MM-DD` strings.
  - Upstream temperatures and probabilities are reals.
  - JavaScript `Math.round` is modelled exactly, rounding halves toward +infinity.
- Where the code and its own comments disagree, the model follows the code. Two examples:
  - the "exponential" back-off in base.js is linear;
  - a retry count "set to 0" still gets the full budget.

## Model

| member | source | states |
|---|---|---|
| Common.Round | src/api/weather.js:32-35 | `Math.round`: the nearest integer, with halves rounded up |
| Common.RoundMonotone | src/api/weather.js:105-106 | rounding never reverses an order, so a rounded maximum is at least the rounded minimum |
| Common.Clamp | src/components/infrastructure.js:75-80 | `Math.max(0, Math.min(100, v))` lies in the range, keeps in-range values and maps values below or above the range to its ends |
| Common.IndexOf | src/api/calendar.js:168-170 | `indexOf` of a character: the first position holding it, or none iff the character does not occur |
| Common.Substring | server.js:450-460 | `substring` with both ends clamped to the length: exactly `s[min(a,|s|)..min(b,|s|)]`, never longer than `b - a` |
| Common.SubstringConcat | server.js:450-460 | adjacent substrings concatenate to the substring over both ranges |
| Common.Split | src/api/calendar.js:73-82 | `split` on one character gives at least one part, no part contains the separator, and joining the parts with it gives the text back |
| Common.SplitJoin | src/api/calendar.js:73-82 | splitting the join of separator-free parts gives those parts back |
| Common.NatToStringValue | src/api/calendar.js:60-62 | the decimal text of a status code reads back as that number |
| Common.PadDigitsValue | src/api/calendar.js:92 | a zero-padded field of the ISO text reads back as its number |
| Common.Take | src/components/weather.js:234 | `slice(0, n)`: a prefix of length min(n, length) |
| CivilTime.CivilFromDays | src/api/calendar.js:92 | the civil date of a day number has a month 1-12 and a day 1-31, and maps back to that day number |
| CivilTime.UtcFields | src/api/calendar.js:92 | the UTC fields of an instant lie in their normal ranges, and together with the milliseconds they give the instant back |
| CivilTime.IsoString | src/api/calendar.js:92 | `toISOString()` of valid fields is 24 characters |
| ICal.Field | src/api/calendar.js:203-220 | a fixed-offset slice is read as a number only when it is all digits, and its value is their decimal value |
| ICal.ParseICalDate | src/api/calendar.js:201-223 | a result is a host-valid date; a local date iff the text has no 'T'; when it has a 'T', UTC iff it ends in 'Z' |
| ICal.ParseFormatRoundTrip | server.js:450-472 | reading the RFC 5545 basic form of any valid value gives that value back |
| ICal.UtcExample | src/api/calendar.js:202-213 | `20250615T140000Z` is the UTC instant 2025-06-15 14:00:00 |
| ICal.DateOnlyExample | src/api/calendar.js:217-222 | `20250615` is the local midnight of 2025-06-15 |
| ICal.DigitsHaveNoT | src/api/calendar.js:202-210 | a text of digits contains no 'T' and does not end in 'Z' |
| ICal.SplitLines | src/api/calendar.js:152 | splitting at line breaks yields at least one line |
| ICal.SplitLinesRejoin | src/api/calendar.js:152 | `split(/\r?\n/)`: no line holds an LF, a CR is dropped only before an LF, and the lines joined back with their breaks give the text |
| ICal.JoinLinesOfParts | src/api/calendar.js:152 | lines with their CRs put back and joined by LF give the LF-split parts joined by LF |
| ICal.ParseContentLine | src/api/calendar.js:168-174 | a line has a property iff it has a colon; the name is a prefix of the line with no ':' or ';' |
| ICal.ParametersDropped | src/api/calendar.js:171-174 | parameters between the name and the colon are dropped and the value is kept whole |
| ICal.DateParameterIgnored | server.js:425-428 | `DTSTART;VALUE=DATE:20250615` is read as DTSTART with the bare date |
| ICal.Body | src/api/calendar.js:157-164 | the lines read as properties never include `END:VEVENT` |
| ICal.EventOf | src/api/calendar.js:185-189 | an event has a valid start, a valid end when it has one, and no calendar name yet |
| ICal.BeginLineIsInert | src/api/calendar.js:158-161 | a second `BEGIN:VEVENT` changes nothing |
| ICal.ApplyAllMeaning | src/api/calendar.js:176-182 | applying a body fails iff one of its dates is unreadable; otherwise later duplicates overwrite earlier ones |
| ICal.RunInside | src/api/calendar.js:157-183 | inside an event, scanning equals applying the lines up to the first `END:VEVENT` |
| ICal.RunOutside | src/api/calendar.js:157-183 | from the start, scanning equals applying the lines after the first `BEGIN:VEVENT` |
| ICal.ScannerMatchesReference | src/api/calendar.js:150-194 | the flag-driven scanner and the reference definition give the same event |
| ICal.LastIsLatest | src/api/calendar.js:176-182 | the value kept for a property comes from a line with that name, and no later line has that name |
| ICal.ParseICalEvent | src/api/calendar.js:150-194 | the line loop returns the event of the lines after the first BEGIN, up to the first END, with a date error giving no event |
| ICal.EndBeforeBeginGivesNothing | src/api/calendar.js:162-164 | an `END:VEVENT` before any BEGIN ends the scan with no event |
| ICal.EventNeedsSummaryAndStart | server.js:430-443 | an event has a non-empty SUMMARY from the last SUMMARY line, and some DTSTART line |
| ICal.EventWhenSummaryAndStart | server.js:430-441 | a non-empty last SUMMARY, a DTSTART and readable dates give an event with those values |
| Forecast.ErrorMessage | src/api/weather.js:15-24 | the missing-key and API error texts, the latter carrying the status |
| Forecast.WindDir | src/api/weather.js:36 | the wind direction is null iff the degree is missing or 0 |
| Forecast.CurrentOf | src/api/weather.js:29-45 | `current`: rounded temperature and wind, pressure equal to pressureMb, null AQI, and sun times iff the city is present |
| Forecast.UpcomingMembers | src/api/weather.js:57 | a sample is still to come today iff it is in the list and `now < t <= todayEnd` |
| Forecast.UpcomingAppend | src/api/weather.js:52-57 | the filter keeps input order: filtering a concatenation concatenates the filtered parts |
| Forecast.HourOf | src/api/weather.js:58-66 | an hourly entry holds the time in ms, the rounded temperature and `round(pop*100)` |
| Forecast.Hours | src/api/weather.js:58-66 | one hourly entry per sample, in order |
| Forecast.HourlyBounds | src/api/weather.js:48-68 | at most 12 entries, each for a sample to come today, and all of them when there are at most 12 |
| Forecast.CollectHourly | src/api/weather.js:48-68 | the hourly loop gives the first 12 upcoming samples in input order |
| Forecast.DistinctProperties | src/api/weather.js:83-90 | a `Set` keeps every value once and adds none |
| Forecast.DistinctFirstAppearance | src/api/weather.js:90 | the values of a `Set` are in order of first appearance |
| Forecast.DaysOfMembers | src/api/weather.js:74-76 | a day has an entry iff some sample falls on it |
| Forecast.SamplesOnMembers | src/api/weather.js:71-91 | every sample is in the group of its own UTC day and in no other |
| Forecast.SamplesOnNonEmpty | src/api/weather.js:76-85 | a day's group is non-empty iff the day has a sample |
| Forecast.GroupOf | src/api/weather.js:87-90 | a day group holds one temperature, precipitation and pressure per sample, in order |
| Forecast.DayKeysProperties | src/api/weather.js:95 | the day keys are distinct and are exactly the days that have samples |
| Forecast.GroupsStep | src/api/weather.js:73-90 | one pass of the grouping loop keeps the map of groups exact |
| Forecast.GroupByDay | src/api/weather.js:71-91 | the grouping loop builds one exact group per day and lists the keys in order of first appearance |
| Forecast.Insert | src/api/weather.js:95 | inserting into ascending keys keeps them ascending and adds exactly the new key |
| Forecast.SortDays | src/api/weather.js:95 | `sort()` of the date keys is ascending and holds the same days |
| Forecast.Later | src/api/weather.js:98 | the filter keeps exactly the dates after today, in order |
| Forecast.FutureDays | src/api/weather.js:94-98 | at most 3 ascending days, each with samples and after today |
| Forecast.FutureDaysAreEarliest | src/api/weather.js:94-101 | any future day with samples is chosen unless three earlier days already fill the list |
| Forecast.MaxOf | src/api/weather.js:105 | `Math.max` is an element at least as large as every element |
| Forecast.MinOf | src/api/weather.js:106 | `Math.min` is an element no larger than any element |
| Forecast.MeanBounds | src/api/weather.js:108 | the mean lies between the bounds of the values |
| Forecast.DailyOf | src/api/weather.js:101-111 | one summary per chosen day, in the chosen order |
| Forecast.SummaryTemperatures | src/api/weather.js:105-106 | high is at least low; every rounded temperature of the day lies between them, and both are attained |
| Forecast.SummaryPrecipitation | src/api/weather.js:107 | precipMax is the largest rounded precipitation percentage of the day |
| Forecast.SummaryPressure | src/api/weather.js:108 | the rounded mean pressure lies between the day's lowest and highest pressure |
| Forecast.SummaryConditions | src/api/weather.js:83-109 | the condition text joins each of the day's conditions once, and only those |
| Forecast.SingleSampleDay | src/api/weather.js:104-110 | a day with one sample reports that sample's values |
| Forecast.BuildDaily | src/api/weather.js:101-111 | the final loop summarises the first min(3, n) future dates |
| Forecast.CollectDaily | src/api/weather.js:71-111 | the grouping pass and the final loop give the daily part |
| Forecast.WeatherOf | src/api/weather.js:22-45 | a non-ok reply fails with its status, an empty list fails, and `current` comes from the first sample |
| Forecast.GetWeather | src/api/weather.js:14-114 | a missing key fails before any request; otherwise one request is made for the location; a rejected `fetch` or `json()` fails with its message, and a settled reply gives its transform |
| Forecast.SortedDays | server.js:148 | the sorted keys are ascending and are exactly the days with samples |
| Forecast.EarliestIsHead | server.js:148 | the earliest day with samples heads the sorted keys |
| Forecast.ServerDays | server.js:148-149 | the server copy uses sorted keys 1 to 3 |
| Forecast.ServerSkipsEarliestDay | server.js:148-149 | the earliest day is always dropped; any later day is chosen unless three earlier ones fill the list |
| Forecast.ServerMatchesWhenTodayIsEarliest | server.js:148-149 | when today is the earliest day, the server and client copies choose the same days |
| Forecast.ServerDiffersWithoutToday | server.js:148-149 | with no sample on or before today, the client shows the earliest day and the server copy drops it |
| Forecast.ServerDailyAsWrittenFails | server.js:156 | as written, the daily loop throws iff it has a second key to read |
| Forecast.TwoDaysGiveServerDays | server.js:149 | two distinct days make the server's daily loop run |
| Forecast.ServerDaily | server.js:148-159 | the corrected loop gives one summary per server day, in order |
| Forecast.ServerDailyMatches | server.js:148-159 | corrected, the server's daily part equals the client's when today is the earliest day |
| Forecast.ServerWeatherAsWritten | server.js:85-159 | a success as written has no daily entries |
| Forecast.ServerWeatherAsWrittenFails | server.js:148-159 | as written, every usable reply spanning two UTC dates fails with the missing `Math.average` error |
| Forecast.AverageMessageText | server.js:156 | that error reads "Math.average is not a function" |
| Forecast.ServerWeather | server.js:85-159 | the same error cases as the client, no sun times, and the same hourly part |
| Forecast.ServerCollectDaily | server.js:125-159 | the corrected grouping and daily loops give the corrected server daily part |
| CalDav.CalendarErrorMessage | src/api/calendar.js:18-20 | the credentials and discovery error texts, the latter carrying the status |
| CalDav.InstantStampRoundTrip | src/api/calendar.js:92-93 | the time-range stamp of an instant reads back as its UTC fields, which give the instant truncated to the second |
| CalDav.RangeOf | src/api/calendar.js:22-36 | 'tomorrow' and 'week' are recognised; any other keyword means today |
| CalDav.WindowShape | src/api/calendar.js:37-38 | the window starts at a local midnight, ends at 23:59:59.999 local, and spans one day or eight |
| CalDav.WindowPlacement | src/api/calendar.js:23-38 | today's window holds now; 'tomorrow' is today's window shifted one day; 'week' extends the end by seven days |
| CalDav.RemoveConcat | src/api/calendar.js:92 | removing '-' and ':' distributes over concatenation |
| CalDav.FormatDateIsBasic | src/api/calendar.js:92 | the time-range stamp is the basic UTC form `YYYYMMDDTHHMMSSZ` of the instant |
| CalDav.FormatDateRoundTrip | src/api/calendar.js:92 | reading the stamp back with `parseICalDate` gives the instant's UTC fields |
| CalDav.Segments | src/api/calendar.js:81-82 | each href segment is non-empty and holds no '/' |
| CalDav.NameOf | src/api/calendar.js:82 | a non-empty display name wins; otherwise the last non-empty href segment is used |
| CalDav.NameFromLastSegment | src/api/calendar.js:82 | without a display name, `.../<name>/` is called `<name>` |
| CalDav.CalendarsOfMembers | src/api/calendar.js:71-85 | a calendar is listed iff it comes from a kept entry: a calendar with a non-empty href not ending in `/<user>/` |
| CalDav.DiscoverCalendars | src/api/calendar.js:71-85 | the discovery loop lists the calendars of the kept entries, in reply order |
| CalDav.TaggedEvent | src/api/calendar.js:126-137 | an event comes only from non-empty data that parses, with a valid start, and is tagged with its calendar's name |
| CalDav.EventsIn | src/api/calendar.js:122-137 | every event of a REPORT is valid and carries the calendar's name |
| CalDav.ReportEvents | src/api/calendar.js:94-120 | a rejected REPORT fails with its message; a settled one gives valid events carrying the calendar's name, none for a reply that is not ok |
| CalDav.ReplyEvent | src/api/calendar.js:128-136 | a `calendar-data` yields the tagged event exactly when it is non-empty and parses |
| CalDav.PushReplyEvents | src/api/calendar.js:126-137 | the inner loop appends the reply's events, in reply order, to those already gathered |
| CalDav.ReportAll | src/api/calendar.js:90-138 | the outer loop gives the specified gathering and requests one REPORT per calendar up to and including the first that rejects |
| CalDav.CollectedOutcome | src/api/calendar.js:90-138 | the gathering succeeds iff no REPORT rejects; otherwise it fails with the first rejection's message, and that calendar is the last one requested |
| CalDav.RejectionStops | src/api/calendar.js:94 | a rejection after successful calendars ends the gathering with its message, with that calendar the last requested |
| CalDav.CollectedValid | src/api/calendar.js:90-138 | every gathered event of a successful gathering has a start that `new Date` accepts |
| CalDav.CollectedNames | src/api/calendar.js:130-137 | every gathered event of a successful gathering carries the name of a calendar it came from |
| CalDav.CollectedConcat | src/api/calendar.js:90-138 | the calendars contribute their events in calendar order |
| CalDav.CalendarContribution | src/api/calendar.js:117-120 | the gathering is the calendars before, then this calendar's REPORT, then those after, chained so that the first rejection wins |
| CalDav.InsertBy | src/api/calendar.js:141 | insertion adds exactly one element |
| CalDav.InsertKeepsSorted | src/api/calendar.js:141 | insertion keeps the order by key |
| CalDav.SortBy | src/api/calendar.js:141 | sorting by key gives an ordered permutation |
| CalDav.SortByStart | src/api/calendar.js:141 | the merged events are a permutation ordered by start instant |
| CalDav.CalendarEvents | src/api/calendar.js:14-146 | missing credentials fail first; a rejected PROPFIND fails with its message and a reply that is not ok with its status; a result is a list of valid events sorted by start |
| CalDav.CalendarRejection | src/api/calendar.js:94 | the first REPORT that rejects makes the whole call fail with its message, after the PROPFIND and the REPORTs up to it |
| CalDav.Requests | src/api/calendar.js:17-20 | missing credentials make no request at all |
| CalDav.GetCalendarEvents | src/api/calendar.js:14-146 | the loops give the specified outcome and request the PROPFIND, then one REPORT per kept calendar until one rejects |
| CalDav.WhenDiscovered | src/api/calendar.js:60-141 | after a successful discovery the outcome is the gathered events sorted by start, or the first REPORT rejection; the requests are the PROPFIND and the REPORTs up to that rejection |
| CalDav.ResultFromKeptCalendars | src/api/calendar.js:60-141 | the result is exactly the gathered events, reordered |
| CalDav.CalendarOutcome | src/api/calendar.js:117-137 | in a successful call no REPORT rejected; a calendar whose REPORT is not ok contributes nothing, and one that is ok contributes all of its parsed events |
| ServerRoutes.Location | server.js:68 | the query wins, then the environment, then 'Seattle,US'; the result is never empty |
| ServerRoutes.WeatherAnswer | server.js:162-165 | 200 iff the transform succeeded; a caught error answers 500 with its message |
| ServerRoutes.WeatherRoute | server.js:66-166 | the route answers as specified, a rejected upstream fetch included; no request without a key, and one request for the location with a key |
| ServerRoutes.WeatherRouteStatus | server.js:71-165 | 400 exactly when the key is missing; 200 exactly for an ok, non-empty reply; a rejected fetch answers 500 with its message, and a reply that is not ok 500 with its status |
| ServerRoutes.WeatherRouteAsWrittenFails | server.js:156 | as written, a reply spanning two UTC dates answers 500 with the `Math.average` error |
| ServerRoutes.WeatherRouteAsWrittenSingleDay | server.js:148-159 | with a single date the route as written and the corrected route agree |
| ServerRoutes.DateKeyword | server.js:174 | the query keyword, or 'today' when it is missing |
| ServerRoutes.CalendarRoute | server.js:172-308 | the route answers as specified, rejections included, and requests what the CalDAV rules request |
| ServerRoutes.CalendarRouteStatus | server.js:179-306 | missing credentials answer 400 before any request; a rejected PROPFIND answers 500 with its message, and a failed discovery 500 with its status; a 200 carries valid events sorted by start |
| ServerRoutes.CalendarRouteRejection | server.js:203-306 | the first REPORT that rejects answers 500 with its message, after the PROPFIND and the REPORTs up to it |
| ServerRoutes.PrometheusResponse | server.js:314-324 | a missing query answers 400 first; otherwise a missing URL answers 400 |
| ServerRoutes.PrometheusRequests | server.js:316-326 | a fetch happens iff both the query and the URL are present |
| ServerRoutes.PrometheusRequestsMade | server.js:314-326 | the route answers 400 iff it requests nothing; otherwise it requests the query URL once |
| ServerRoutes.PrometheusPassThrough | server.js:326-338 | an ok upstream is passed through with 200; a rejected fetch answers 500 with its message, and a reply that is not ok 500 with its status |
| Infrastructure.ClusterHealth | src/components/infrastructure.js:282-286 | 3 up is healthy, 2 up is warning, anything else is critical |
| Infrastructure.NodeStatusClass | src/components/infrastructure.js:288-308 | a node that is not up is critical; an up node is healthy iff cpu < 60 and memory < 80 |
| Infrastructure.NodeCriticalIff | src/components/infrastructure.js:301-307 | an unhealthy up node is warning iff cpu is in [60,85] or memory is in [80,95], and critical otherwise |
| Infrastructure.WarningBandWins | src/components/infrastructure.js:301-307 | cpu 90 with memory 85 is warning; cpu 90 with memory 70 is critical |
| Infrastructure.MetricStatus | src/components/infrastructure.js:310-314 | below 60 is normal, below 85 is warning, and anything else is critical |
| Infrastructure.MetricMonotone | src/components/infrastructure.js:310-314 | a higher value never gets a milder status |
| Infrastructure.MetricAndNodeDisagreeAt85 | src/components/infrastructure.js:301-314 | at 85 the metric rule says critical while the node rule says warning |
| Infrastructure.StatusColor | src/components/infrastructure.js:316-320 | up is green, down is red, and anything else is yellow |
| Infrastructure.NodeOf | src/components/infrastructure.js:44-84 | a node is down iff its up value is not exactly "1"; down and error nodes have zero metrics; up nodes have metrics in [0,100] |
| Infrastructure.UpNodeMetrics | src/components/infrastructure.js:61-80 | an up node reports its cpu and memory clamped and its pods unclamped |
| Infrastructure.NodeIsolation | src/components/infrastructure.js:81-84 | a node's record depends only on its own answers |
| Infrastructure.QueriesOf | src/components/infrastructure.js:47-73 | the up query is asked first, and the metric queries follow iff the node is up |
| Infrastructure.CollectNodes | src/components/infrastructure.js:44-85 | the loop records every listed node with its own record, asking at most four queries each |
| Infrastructure.UpCount | src/components/infrastructure.js:96-97 | the number of up nodes is at most the number of nodes |
| Infrastructure.HealthyIffAllUp | src/components/infrastructure.js:13 | with the fixed three nodes, the cluster is healthy iff all of them are up |
| Infrastructure.FetchStatus | src/components/infrastructure.js:35-91 | a configuration error or a missing URL shows an error box; otherwise every node is shown with its own record |
| BaseComponent.Retry | src/components/base.js:156-188 | at least one attempt, and one wait and one notice per retry |
| BaseComponent.RetrySchedule | src/components/base.js:172-182 | at most `maxRetries + 1 - retryCount` attempts; the wait before retry k is `retryDelay * k` |
| BaseComponent.RetryFindsFirstSuccess | src/components/base.js:158-166 | the call returns the first successful attempt within the budget, after exactly the attempts up to it |
| BaseComponent.RetryExhausted | src/components/base.js:185 | when every attempt fails, the call throws "Failed after N attempts" with the last error |
| BaseComponent.RetryErrMeansAllFailed | src/components/base.js:156-188 | a thrown result means that no attempt within the budget succeeded |
| BaseComponent.DefaultBudget | src/components/base.js:11-13 | with the defaults, four attempts and waits of 5 s, 10 s and 15 s |
| BaseComponent.DashboardComponent.constructor | src/components/base.js:8-14 | the retry defaults are 3 retries 5 s apart, with the counter at 0 |
| BaseComponent.DashboardComponent.SetHTML | src/components/base.js:62-69 | true iff the selector matched; only then is that element's markup replaced |
| BaseComponent.DashboardComponent.SetText | src/components/base.js:74-81 | true iff the selector matched; only then is that element's text replaced |
| BaseComponent.DashboardComponent.FetchWithRetry | src/components/base.js:156-188 | the call follows the retry policy; a success resets the counter |
| InfrastructureStatus.QueryRetry | src/components/infrastructure-status/infrastructure-status.js:49-84 | each query is tried between one and four times |
| InfrastructureStatus.FullBudgetPerQuery | src/components/infrastructure-status/infrastructure-status.js:49-53 | starting from 0, a failing query is tried four times and its node errors |
| InfrastructureStatus.AnsweredQuery | src/components/infrastructure-status/infrastructure-status.js:49-84 | a query answered on some attempt gives that answer |
| InfrastructureStatus.DisplayName | src/components/infrastructure-status/infrastructure-status.js:148 | the name is capitalised, with the rest unchanged |
| InfrastructureStatus.CardOf | src/components/infrastructure-status/infrastructure-status.js:146-215 | a card is a down card iff the node is not up, reading 'Node Down' iff it is down; an up card shows the metric classes |
| InfrastructureStatus.CardsOf | src/components/infrastructure-status/infrastructure-status.js:123-144 | one card per node, in the fixed order |
| InfrastructureStatus.CardOrder | src/components/infrastructure-status/infrastructure-status.js:135-140 | the cards read Babbage, Epimetheus, Kabandha |
| InfrastructureStatus.StatusPanel.constructor | src/components/infrastructure-status/infrastructure-status.js:14-19 | nothing is shown and nothing is cached |
| InfrastructureStatus.Redraw | src/components/infrastructure-status/infrastructure-status.js:110-129 | with the template present the grid shows the cards, with the notice on the cached path; without it only the notice is added to the error box |
| InfrastructureStatus.ErrorBoxSticks | src/components/base.js:99-121 | once an error box is up, no redraw brings the template back |
| InfrastructureStatus.StatusPanel.FetchStatus | src/components/infrastructure-status/infrastructure-status.js:35-121 | with the template put back before drawing: a completed pass caches and shows every node; on a failure the cache, if any, is redrawn with a notice, and otherwise an error is shown |
| InfrastructureStatus.StatusPanel.FetchStatusAsWritten | src/components/infrastructure-status/infrastructure-status.js:35-129 | the same cache; the completed and cached passes draw through `Redraw` of the previous display, so after an error box they find no grid |
| InfrastructureStatus.StuckAfterMissingUrl | src/components/infrastructure-status/infrastructure-status.js:35-129 | after a pass with no URL, a completed pass leaves the error box as written, and shows one card per node when corrected |
| InfrastructureStatus.AllErroredPassIsCached | src/components/infrastructure-status/infrastructure-status.js:98-107 | even a pass in which every node errored is cached, and all its cards read 'Error' |
| WeatherCurrent.AqiColor | src/components/weather/weather-current/weather-current.js:120-127 | the bands are Good up to 50, Moderate up to 100, Unhealthy up to 150, Very Unhealthy up to 300, and Hazardous beyond |
| WeatherCurrent.VeryUnhealthyTwice | src/components/weather/weather-current/weather-current.js:124-125 | 151-200 and 201-300 share a label and differ in colour |
| WeatherCurrent.WeatherIcon | src/components/weather/weather-current/weather-current.js:218-261 | a known condition gets its table entries; anything else gets the default emoji and glyph |
| WeatherCurrent.SharedIcons | src/components/weather/weather-current/weather-current.js:218-256 | the fog-like groups share one picture, and the wind-borne groups share a glyph |
| WeatherCurrent.After | src/components/weather/weather-current/weather-current.js:145 | the kept readings are exactly those newer than the cutoff |
| WeatherCurrent.FirstBefore | src/components/weather/weather-current/weather-current.js:158 | `find` gives the first reading older than the cutoff, or none iff there is none |
| WeatherCurrent.TrendOfDiff | src/components/weather/weather-current/weather-current.js:164-173 | a difference above 2 is Rising, below -2 is Falling, and within ±2 is Steady |
| WeatherCurrent.HistoryIsRecent | src/components/weather/weather-current/weather-current.js:132-149 | after a call the history ends with the current reading and holds only readings from the last six hours |
| WeatherCurrent.TrendAgainstOldest | src/components/weather/weather-current/weather-current.js:151-173 | the trend compares against the first kept reading older than three hours, and is Steady without one |
| WeatherCurrent.FirstBeforeExtended | src/components/weather/weather-current/weather-current.js:148-158 | appending the current reading changes no `find` |
| WeatherCurrent.TrendColors | src/components/weather/weather-current/weather-current.js:191-199 | the Rising and Falling texts get the rising and falling colours |
| WeatherCurrent.SunTime | src/components/weather/weather-current/weather-current.js:201-216 | a missing or zero timestamp gives "--:--"; otherwise the host's time text of the instant |
| WeatherCurrent.CurrentCard.constructor | src/components/weather/weather-current/weather-current.js:14-18 | no cache and an empty card |
| WeatherCurrent.CurrentCard.PressureTrend | src/components/weather/weather-current/weather-current.js:129-189 | returns the specified trend and rewrites the history as specified |
| WeatherCurrent.Drawn | src/components/weather/weather-current/weather-current.js:62-118 | with the template present the card shows the conditions, trend and stale mark; without it only the stale notice is added to the error box |
| WeatherCurrent.ErrorBoxSticks | src/components/base.js:99-121 | once an error box is up, no redraw brings the card's fields back, and the box keeps its message |
| WeatherCurrent.CurrentCard.UpdateDisplay | src/components/weather/weather-current/weather-current.js:62-118 | with the template put back first: shows the conditions with their trend and the stale mark, recording a reading |
| WeatherCurrent.CurrentCard.UpdateDisplayAsWritten | src/components/weather/weather-current/weather-current.js:62-118 | draws through `Drawn` of the previous view, and records the reading even when the fields are not found |
| WeatherCurrent.CurrentCard.FetchWeather | src/components/weather/weather-current/weather-current.js:34-60 | a success caches and shows fresh data; a failure shows the cache marked stale, or an error when nothing is cached |
| WeatherCurrent.CurrentCard.FetchWeatherAsWritten | src/components/weather/weather-current/weather-current.js:34-60 | the same cache and history; the drawing goes through `Drawn`, so after the error box a success is cached but not shown |
| WeatherCurrent.StuckAfterFirstFailure | src/components/weather/weather-current/weather-current.js:34-60 | after a first fetch fails with nothing cached, a success leaves the error box as written, and shows the fresh conditions when corrected |
| WeatherLegacy.ForecastIcon | src/components/weather.js:366-385 | the fallback emoji is shown iff the condition is unknown, and the table equals the newer card's emoji table |
| WeatherLegacy.CurrentViewOf | src/components/weather.js:53-95 | the AQI row appears iff the AQI is truthy; pressure falls back to pressureMb |
| WeatherLegacy.FixedReadings | src/components/weather.js:171-185 | the trend is always Steady, and sunrise and sunset are fixed texts |
| WeatherLegacy.SplitByDay | src/components/weather.js:228-241 | the loop puts each of the first 12 items under today or tomorrow, keeping order |
| WeatherLegacy.SplitOfConcat | src/components/weather.js:234-241 | both lists keep the order of appearance |
| WeatherLegacy.SplitIsExact | src/components/weather.js:234-241 | every item lands in exactly one list |
| WeatherLegacy.ItemPlacement | src/components/weather.js:236-240 | an item is under today iff it has today's local date, and under tomorrow otherwise |
| WeatherLegacy.AllTodayLeavesNoTomorrow | src/components/weather.js:263 | when every item is of today, the tomorrow list is empty |
| WeatherLegacy.ForecastViewOf | src/components/weather.js:263 | the TOMORROW table appears only when non-empty |
| WeatherLegacy.TomorrowTableIff | src/components/weather.js:234-263 | the TOMORROW table appears iff one of the first 12 items is of another date |
| WeatherLegacy.OnlyFirstTwelve | src/components/weather.js:234 | items after the twelfth never reach either table |
| BaseComponent.ErrorText | src/components/base.js:99-121 | the error box reads "Error: " followed by the message passed |
| WeatherLegacy.FailureScreen | src/components/weather.js:40-51 | the error box gets the thrown error's message, or "Weather API error" for a reply that is not ok |
| WeatherLegacy.CurrentScreen | src/components/weather.js:40-51 | an error is shown iff the fetch threw or the response was not ok; there is no cache |
| WeatherLegacy.ForecastScreen | src/components/weather.js:215-226 | an error is shown iff the fetch threw or the response was not ok; otherwise the table is shown |
| WeatherLegacy.ConditionsCard.FetchWeather | src/components/weather.js:40-51 | the content after a fetch depends on that fetch alone |
| WeatherLegacy.ForecastTable.FetchForecast | src/components/weather.js:215-241 | the content after a fetch is the specified screen |
| Refresh.Resolve | src/refresh-manager.js:15-20 | `??` gives the default iff the option is nullish or equals the default |
| Refresh.OptionsOf | src/refresh-manager.js:13-22 | the defaults are 04:30, five minutes and three errors |
| Refresh.ExplicitZeroKept | src/refresh-manager.js:15-20 | an explicit 0 is kept, while undefined and null take the default |
| Refresh.SpreadSetting | src/refresh-manager.js:21 | after the spread a property is never missing; a missing one takes the default |
| Refresh.SpreadUndoesDefault | src/refresh-manager.js:15-21 | the spread agrees with `??` on missing and numeric options, and overrides it for undefined and null |
| Refresh.ThresholdAsWrittenFails | src/refresh-manager.js:21 | with the threshold undefined no count forces a refresh; with it null every count does |
| Refresh.WallClock | src/refresh-manager.js:80 | the zone's wall clock truncated to the second |
| Refresh.DailyDelay | src/refresh-manager.js:83-91 | the delay lies in (0, 24 h] and lands on the slot's time of day |
| Refresh.DailyDelayAtSlot | src/refresh-manager.js:88-89 | at the slot itself the refresh is a day away; a millisecond earlier, one millisecond |
| Refresh.VersionOf | src/refresh-manager.js:59-71 | a throw or a non-ok response gives no version |
| Refresh.NextVersion | src/refresh-manager.js:65-67 | the stored version is replaced only by an ok response |
| Refresh.DeploymentCheckNeverFires | src/refresh-manager.js:116-128 | as written, no reply ever triggers the deployment refresh |
| Refresh.DeploymentMissed | src/refresh-manager.js:118-120 | "v1" then "v2" is missed as written and caught as intended |
| Refresh.DeploymentFiresOnNewVersion | src/refresh-manager.js:118-120 | corrected, the check fires iff an ok reply names a version that differs from the known one |
| Refresh.ErrorsAfter | src/refresh-manager.js:140-164 | a counted error adds 1; an ok `/api/` response resets the counter; other responses leave it unchanged |
| Refresh.RefreshRequests | src/refresh-manager.js:150-164 | one repeated-error refresh request flag per fetch |
| Refresh.ErrorRunRequests | src/refresh-manager.js:150-164 | in a run of counted errors, every fetch from the threshold on asks for a refresh |
| Refresh.ReloadTimes | src/refresh-manager.js:179-196 | no more reloads than calls |
| Refresh.ReloadsSpaced | src/refresh-manager.js:179-185 | reloads are at least 60 s after the last one and after each other |
| Refresh.RefreshManager.constructor | src/refresh-manager.js:12-29 | resolved options, no errors, an unknown version, and the last refresh at construction time |
| Refresh.RefreshManager.FetchCurrentVersion | src/refresh-manager.js:52-72 | returns the reply's version, and keeps the stored one unless the reply is ok |
| Refresh.RefreshManager.ScheduleDailyRefresh | src/refresh-manager.js:77-111 | the timer is set to the next daily slot |
| Refresh.RefreshManager.CheckDeploymentAsWritten | src/refresh-manager.js:116-128 | as written, the tick never schedules a refresh |
| Refresh.RefreshManager.CheckDeployment | src/refresh-manager.js:116-128 | corrected, a new version schedules a refresh 10 s later |
| Refresh.RefreshManager.HardRefresh | src/refresh-manager.js:175-197 | reloads iff a minute has passed since the last refresh, and then stamps the time |
| Refresh.RefreshManager.OnFetch | src/refresh-manager.js:133-169 | updates the counter and reloads iff a counted error reaches the threshold and the rate limit allows |
| Screensaver.IdleThresholdOf | src/components/screensaver/screensaver-controller.js:13 | a falsy option falls back to three hours |
| Screensaver.Step | src/components/screensaver/screensaver-controller.js:52-91 | a firing tick activates; other ticks change nothing; activity stamps the time; the end of a run deactivates and stamps the time |
| Screensaver.Fired | src/components/screensaver/screensaver-controller.js:60-72 | one trigger flag per event |
| Screensaver.TickIsStrict | src/components/screensaver/screensaver-controller.js:63-64 | exactly the threshold is not enough; one millisecond more is |
| Screensaver.ActiveBlocksTicks | src/components/screensaver/screensaver-controller.js:74-76 | while a run is active and has not ended, no tick starts another |
| Screensaver.RunEndsBetweenTriggers | src/components/screensaver/screensaver-controller.js:74-86 | between two starts, the first run has ended |
| Screensaver.ActivityKeepsRun | src/components/screensaver/screensaver-controller.js:52-58 | activity restarts the idle period without ending a run |
| Screensaver.DashboardScreensaver.constructor | src/components/screensaver/screensaver-controller.js:12-30 | inactive, with the idle period starting now |
| Screensaver.DashboardScreensaver.ResetIdleCheck | src/components/screensaver/screensaver-controller.js:89-91 | stamps the time |
| Screensaver.DashboardScreensaver.RecordActivity | src/components/screensaver/screensaver-controller.js:52-58 | an activity step |
| Screensaver.DashboardScreensaver.TriggerScreensaver | src/components/screensaver/screensaver-controller.js:74-76 | sets the active flag |
| Screensaver.DashboardScreensaver.EndRun | src/components/screensaver/screensaver-controller.js:82-86 | an end-of-run step, normal or failed |
| Screensaver.DashboardScreensaver.IdleTick | src/components/screensaver/screensaver-controller.js:60-72 | triggers iff the tick fires, and takes the tick step |
| Config.FailureMessage | src/config-manager.js:49-56 | the wrapped message starts with the details |
| Config.BackendError | src/config-manager.js:36-48 | a throw keeps its message; 403 is the production message; other failures give "HTTP status: text"; no error iff ok and parsed |
| Config.Lookup | src/config-manager.js:75-80 | the stored value, unless missing or nullish |
| Config.LookupDefaultsOnlyNullish | src/config-manager.js:75-80 | only null and undefined fall back; '', 0 and false are returned as stored |
| Config.ConfigManager.constructor | src/config-manager.js:19-22 | null config, not initialised |
| Config.ConfigManager.Initialize | src/config-manager.js:24-57 | an injected object wins without a request; otherwise one request; a failure throws the wrapped error and leaves the state unchanged |
| Config.ConfigManager.LoadFromBackend | src/config-manager.js:36-48 | the body of the `try` raises exactly the backend error, and otherwise yields the parsed object |
| Config.ConfigManager.GetConfig | src/config-manager.js:63-68 | succeeds iff the manager is ready, and then gives the object |
| Config.ConfigManager.Get | src/config-manager.js:75-80 | throws iff not initialised; otherwise the lookup with default |
| Config.NullBodyInitialises | src/config-manager.js:45-48 | a null body initialises without making the manager ready, and every key then reads its default |

## Left out

- Network, HTTP and libraries:
  - `node-fetch` and browser `fetch` are oracles. Their replies are already decoded: the JSON bodies, and the XML bodies as extracted records parsed by `@xmldom/xmldom`.
  - Basic-auth encoding, `encodeURIComponent` and the text of the PROPFIND and REPORT request bodies are not modelled. The request URLs keep the raw location and query text.
  - The Express wiring is not modelled: static serving, `/api/config`, `/health`, SPA fallback and the startup banner. The routes are functions from their inputs to a status and a body.
- Host time and dates:
  - The `Date` text forms are not modelled: `toISOString` for hourly times (kept as milliseconds), `toDateString`, `toLocaleTimeString` and `toLocaleString`.
  - Daily dates are UTC day numbers rather than `YYYY-MM-DD` strings.
  - The host time zone and the Los Angeles zone are fixed offsets, so daylight-saving changes are not modelled.
  - `parseICalDate` is valid only for four-digit years.
  - `formatSunTime` takes the host's time formatting as a parameter.
- Numbers:
  - Upstream numbers are given values, with no NaN or `parseFloat` of arbitrary text.
  - Prometheus metric values are read as integers.
- JavaScript objects:
  - The icon tables do not model prototype keys such as `constructor`.
  - A configuration other than an object or `null` is not modelled.
- Timers, intervals, async interleaving and the global instances created at module load are not modelled. Each tick, timer firing or event is an explicit method call with the time as a parameter.
- `Refresh.RefreshManager.CheckDeployment`: the 10-second settle delay is a returned instant, not a timer.
- `Refresh.RefreshManager.HardRefresh`: clearing browser storage and the reload itself are not modelled; the method returns whether a reload happens.
- `Refresh.WallClock`: the `toLocaleString` round trip through Los Angeles time is approximated by a fixed offset and truncation to the second.
- The DOM and styles are not modelled: markup text, colours of cards, `showLoading` and `escapeHTML`. What a component shows is a datatype, which records whether `showError` has replaced the template.
- `showTransientError`: its notice is part of the display, but its removal after five seconds is a timer and is not modelled.
- A rejected `fetch`, a rejected `response.json()` and a rejected `response.text()` are one `Rejected` outcome with the error's message. When the order of several awaits matters, they are modelled as one.
- The notices `fetchWithRetry` shows between attempts are returned by `BaseComponent.Retry`, but the panels do not draw them.
- `InfrastructureStatus`: the `retryAttempts` counter of the shared component is not tracked across the queries of a pass.
- `WeatherCurrent.CurrentCard.PressureTrend`: a failed storage write is not modelled. An unreadable stored history gives Steady and leaves the history unchanged.
- The screensaver's canvas animation, random particles and frame timing are not modelled. Only the moment a run ends is.
- `RefreshManager.softRefresh`, `destroy` and the debug status helpers are not modelled, because they touch only timers and the page.
- `src/api/prometheus.js`, the dashboards, time-display, the 3-day and forecast components, the router and the build configuration are not part of this model.

## Findings

| source | as written | input that shows it | evidently intended | confidence | as-written member | corrected member |
|---|---|---|---|---|---|---|
| server.js:156 | the daily loop calls `Math.average`, which JavaScript does not define. The throw is caught, and the route answers 500 | any upstream reply whose samples span two UTC dates | the mean of the day's pressures, as `src/api/weather.js:108` computes it | not executed | Forecast.ServerDailyAsWrittenFails, Forecast.ServerWeatherAsWrittenFails, ServerRoutes.WeatherRouteAsWrittenFails | Forecast.ServerDaily, Forecast.ServerCollectDaily, ServerRoutes.WeatherRoute |
| src/refresh-manager.js:65-67, 118-120 | `fetchCurrentVersion` stores the new version before the check compares it with `currentVersion`, so the comparison is always equal | stored version "v1", server answers "v2" | a refresh when the served version differs from the one known before the fetch | not executed | Refresh.DeploymentCheckNeverFires, Refresh.DeploymentMissed, Refresh.RefreshManager.CheckDeploymentAsWritten | Refresh.DeploymentFiresOnNewVersion, Refresh.RefreshManager.CheckDeployment |
| src/refresh-manager.js:15-21 | `...options` after the `??` defaults puts back an explicit `undefined` or `null`. `consecutiveErrors >= undefined` is never true, and `>= null` is always true | `new RefreshManager({ consecutiveErrorThreshold: undefined })` | the `??` default of 3 errors | not executed | Refresh.SpreadUndoesDefault, Refresh.ThresholdAsWrittenFails | Refresh.Resolve, Refresh.OptionsOf, Refresh.ExplicitZeroKept |
| src/components/base.js:113-117, src/components/infrastructure-status/infrastructure-status.js:123-129 | `showError` empties the shadow root, so `#infrastructureGrid` is gone. Every later `updateGrid` logs "grid not found" and returns, and the panel shows the error until the page reloads | a first pass with `prometheusUrl` unset, then one with it set | the next completed pass redraws the template and shows the cards | not executed | InfrastructureStatus.StatusPanel.FetchStatusAsWritten, InfrastructureStatus.ErrorBoxSticks, InfrastructureStatus.StuckAfterMissingUrl | InfrastructureStatus.StatusPanel.FetchStatus |
| src/components/base.js:113-117, src/components/weather/weather-current/weather-current.js:62-118 | after `showError` no `setText` of `updateDisplay` finds its element. A later success is cached, and its reading is recorded, but the card keeps showing the error | a first fetch that fails with nothing cached, then one that succeeds | the next success shows the conditions | not executed | WeatherCurrent.CurrentCard.FetchWeatherAsWritten, WeatherCurrent.ErrorBoxSticks, WeatherCurrent.StuckAfterFirstFailure | WeatherCurrent.CurrentCard.FetchWeather, WeatherCurrent.CurrentCard.UpdateDisplay |
