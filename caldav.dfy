/** The CalDAV aggregation of `getCalendarEvents` (src/api/calendar.js): the
    date-range keyword picks a window of host-local days, a PROPFIND (section
    9.1 of RFC 4918) lists the collections, the calendars among them are named,
    a calendar-query REPORT (section 7.8 of RFC 4791) per calendar with a
    time-range in the `YYYYMMDDTHHMMSSZ` form of section 9.9 of RFC 4791 brings
    the events, and the merged events are sorted by start.

    Replies are given already extracted from their XML: a discovery entry is
    `(href, isCalendar, displayName)` and a REPORT outcome is the list of its
    `calendar-data` texts, or `None` for a non-ok status. Either request may
    also reject (the network, or reading the body), which ends the call. The host's time zone
    is a fixed offset `offset` (local time minus UTC, in milliseconds). */
module CalDav {
  import opened Common
  import opened CivilTime
  import opened ICal

  datatype CalendarError =
    | NoCredentials             // thrown before any request
    | DiscoveryFailed(status: nat)
    | RequestFailed(message: string) // a PROPFIND or REPORT request rejected

  function CalendarErrorMessage(e: CalendarError): (m: string)
    ensures e.NoCredentials? ==> m == "Nextcloud credentials not configured"
    ensures e.DiscoveryFailed? ==> m == "CalDAV discovery failed: " + NatToString(e.status)
    ensures e.RequestFailed? ==> m == e.message
  {
    match e
    case NoCredentials => "Nextcloud credentials not configured"
    case DiscoveryFailed(s) => "CalDAV discovery failed: " + NatToString(s)
    case RequestFailed(message) => message
  }

  /** `!url || !user || !password`, with "" standing for a missing value. */
  predicate CredentialsMissing(url: string, user: string, password: string) {
    url == "" || user == "" || password == ""
  }

  // ---------------------------------------------------------------- the window

  datatype DateRange = Today | Tomorrow | Week

  /** The switch on the keyword: anything other than 'tomorrow' or 'week' means today. */
  function RangeOf(keyword: string): (r: DateRange)
    ensures r == Tomorrow <==> keyword == "tomorrow"
    ensures r == Week <==> keyword == "week"
  {
    if keyword == "tomorrow" then Tomorrow else if keyword == "week" then Week else Today
  }

  datatype Window = Window(start: int, end: int)

  /** `startDate`/`endDate` after the `setDate` shifts and the `setHours`
      calls: the first and the last millisecond of the chosen local days. */
  function WindowOf(keyword: string, now: int, offset: int): Window {
    var today := LocalDay(now, offset);
    var first := if RangeOf(keyword) == Tomorrow then today + 1 else today;
    var last := match RangeOf(keyword) case Today => today case Tomorrow => today + 1 case Week => today + 7;
    Window(LocalMidnight(first, offset), LocalMidnight(last + 1, offset) - 1)
  }

  /** The window starts at a local midnight and ends at 23:59:59.999 local
      time; it covers one local day, or eight for 'week'. */
  lemma WindowShape(keyword: string, now: int, offset: int)
    ensures (WindowOf(keyword, now, offset).start + offset) % MsPerDay == 0
    ensures (WindowOf(keyword, now, offset).end + offset) % MsPerDay == MsPerDay - 1
    ensures WindowOf(keyword, now, offset).end - WindowOf(keyword, now, offset).start + 1 ==
      (if RangeOf(keyword) == Week then 8 else 1) * MsPerDay
  {
  }

  /** The today window holds `now`; 'tomorrow' is the today window one day
      later; 'week' starts with today and ends seven days after it. */
  lemma WindowPlacement(keyword: string, now: int, offset: int)
    ensures WindowOf("today", now, offset).start <= now <= WindowOf("today", now, offset).end
    ensures WindowOf("tomorrow", now, offset) ==
      Window(WindowOf("today", now, offset).start + MsPerDay, WindowOf("today", now, offset).end + MsPerDay)
    ensures WindowOf("week", now, offset) ==
      Window(WindowOf("today", now, offset).start, WindowOf("today", now, offset).end + 7 * MsPerDay)
    ensures RangeOf(keyword) == Today ==> WindowOf(keyword, now, offset) == WindowOf("today", now, offset)
  {
  }

  // ---------------------------------------------------------------- the time-range stamp

  /** `formatDate`: `toISOString()` without '-' and ':', cut at the '.', and a 'Z'. */
  function FormatDate(t: DateTime): string
    requires ValidDateTime(t)
  {
    Split(RemoveDashesAndColons(IsoString(t)), '.')[0] + "Z"
  }

  lemma {:induction false} RemoveConcat(a: string, b: string)
    ensures RemoveDashesAndColons(a + b) == RemoveDashesAndColons(a) + RemoveDashesAndColons(b)
  {
    if a != [] {
      assert (a + b)[0] == a[0];
      assert (a + b)[1..] == a[1..] + b;
      RemoveConcat(a[1..], b);
    } else {
      assert a + b == b;
    }
  }

  lemma {:induction false} RemoveKeepsDigits(s: string)
    requires AllDigits(s)
    ensures RemoveDashesAndColons(s) == s
  {
    if s != [] {
      RemoveKeepsDigits(s[1..]);
    }
  }

  lemma SplitFirst(p: string, rest: string, c: char)
    requires !HasChar(p, c)
    ensures Split(p + [c] + rest, c)[0] == p
  {
    var s := p + [c] + rest;
    assert forall j :: 0 <= j < |p| ==> s[j] == p[j];
    IndexOfFirst(s, c, |p|);
    assert s[..|p|] == p;
  }

  lemma RemoveStep(a: string, b: string, ra: string, rb: string)
    requires RemoveDashesAndColons(a) == ra && RemoveDashesAndColons(b) == rb
    ensures RemoveDashesAndColons(a + b) == ra + rb
  {
    RemoveConcat(a, b);
  }

  lemma StripIsoPieces(y: string, mo: string, d: string, h: string, mi: string, se: string, ms: string)
    requires AllDigits(y) && AllDigits(mo) && AllDigits(d) && AllDigits(h) && AllDigits(mi) && AllDigits(se) && AllDigits(ms)
    ensures RemoveDashesAndColons(y + "-" + mo + "-" + d + "T" + h + ":" + mi + ":" + se + "." + ms + "Z") ==
      y + mo + d + "T" + h + mi + se + "." + ms + "Z"
  {
    RemoveKeepsDigits(y); RemoveKeepsDigits(mo); RemoveKeepsDigits(d);
    RemoveKeepsDigits(h); RemoveKeepsDigits(mi); RemoveKeepsDigits(se); RemoveKeepsDigits(ms);
    assert RemoveDashesAndColons("-") == "" && RemoveDashesAndColons(":") == "";
    assert RemoveDashesAndColons("T") == "T" && RemoveDashesAndColons(".") == "." && RemoveDashesAndColons("Z") == "Z";
    var s1 := y + "-";             RemoveStep(y, "-", y, "");
    var s2 := s1 + mo;             RemoveStep(s1, mo, y, mo);
    var s3 := s2 + "-";            RemoveStep(s2, "-", y + mo, "");
    var s4 := s3 + d;              RemoveStep(s3, d, y + mo, d);
    var s5 := s4 + "T";            RemoveStep(s4, "T", y + mo + d, "T");
    var s6 := s5 + h;              RemoveStep(s5, h, y + mo + d + "T", h);
    var s7 := s6 + ":";            RemoveStep(s6, ":", y + mo + d + "T" + h, "");
    var s8 := s7 + mi;             RemoveStep(s7, mi, y + mo + d + "T" + h, mi);
    var s9 := s8 + ":";            RemoveStep(s8, ":", y + mo + d + "T" + h + mi, "");
    var s10 := s9 + se;            RemoveStep(s9, se, y + mo + d + "T" + h + mi, se);
    var p := y + mo + d + "T" + h + mi + se;
    var s11 := s10 + ".";          RemoveStep(s10, ".", p, ".");
    var s12 := s11 + ms;           RemoveStep(s11, ms, p + ".", ms);
    RemoveStep(s12, "Z", p + "." + ms, "Z");
  }

  /** The stamp is the basic UTC form `YYYYMMDDTHHMMSSZ` of the instant's
      fields, the form the iCalendar reader reads back. */
  lemma FormatDateIsBasic(t: DateTime)
    requires ValidDateTime(t)
    ensures FormatDate(t) == FormatBasic(Utc(t.year, t.month, t.day, t.hour, t.minute, t.second))
  {
    var y, mo, d := PadDigits(t.year, 4), PadDigits(t.month, 2), PadDigits(t.day, 2);
    var h, mi, se, ms := PadDigits(t.hour, 2), PadDigits(t.minute, 2), PadDigits(t.second, 2), PadDigits(t.millis, 3);
    StripIsoPieces(y, mo, d, h, mi, se, ms);
    var p := y + mo + d + "T" + h + mi + se;
    assert p + "." + ms + "Z" == p + ['.'] + (ms + "Z");
    assert !HasChar(p, '.') by {
      forall j | 0 <= j < |p| ensures p[j] != '.' {
        assert p[j] == 'T' || IsDigit(p[j]);
      }
    }
    SplitFirst(p, ms + "Z", '.');
  }

  /** Reading a stamp back gives the instant's UTC fields. */
  lemma FormatDateRoundTrip(t: DateTime)
    requires ValidDateTime(t)
    ensures ParseICalDate(FormatDate(t)) == Ok(Utc(t.year, t.month, t.day, t.hour, t.minute, t.second))
  {
    FormatDateIsBasic(t);
    ParseFormatRoundTrip(Utc(t.year, t.month, t.day, t.hour, t.minute, t.second));
  }

  /** The stamp `formatDate` makes of an instant names that instant to the
      second: read back, it gives the instant with its milliseconds dropped. */
  lemma InstantStampRoundTrip(ms: int)
    requires ValidDateTime(UtcFields(ms))
    ensures var t := UtcFields(ms);
      ParseICalDate(FormatDate(t)) == Ok(Utc(t.year, t.month, t.day, t.hour, t.minute, t.second)) &&
      EpochMillis(t.year, t.month, t.day, t.hour, t.minute, t.second) == ms - ms % MsPerSecond
  {
    FormatDateRoundTrip(UtcFields(ms));
  }

  // ---------------------------------------------------------------- discovery

  /** One `<d:response>` of the PROPFIND reply. */
  datatype Entry = Entry(href: Option<string>, isCalendar: bool, displayName: Option<string>)

  /** A calendar to query; `name` is `None` when the rule below yields `undefined`. */
  datatype Calendar = Calendar(href: string, name: Option<string>)

  /** A calendar collection with a non-empty href that is not the user's home
      collection `/<user>/`. */
  predicate Kept(e: Entry, user: string) {
    e.isCalendar && e.href.Some? && e.href.value != "" && !EndsWith(e.href.value, "/" + user + "/")
  }

  /** `href.split('/').filter(x => x)`. */
  function Segments(href: string): (r: seq<string>)
    ensures forall k :: 0 <= k < |r| ==> r[k] != "" && !HasChar(r[k], '/')
  {
    NonEmpty(Split(href, '/'))
  }

  function NonEmpty(xs: seq<string>): (r: seq<string>)
    ensures forall k :: 0 <= k < |r| ==> r[k] != "" && r[k] in xs
  {
    if xs == [] then []
    else (if xs[0] != "" then [xs[0]] else []) + NonEmpty(xs[1..])
  }

  /** `displayname || segments.pop()`. */
  function NameOf(href: string, displayName: Option<string>): (r: Option<string>)
    ensures displayName.Some? && displayName.value != "" ==> r == displayName
    ensures (displayName.None? || displayName.value == "") ==>
      (r.None? <==> Segments(href) == []) &&
      (r.Some? ==> r.value == Segments(href)[|Segments(href)| - 1])
  {
    if displayName.Some? && displayName.value != "" then displayName
    else
      var segs := Segments(href);
      if segs == [] then None else Some(segs[|segs| - 1])
  }

  lemma {:induction false} SplitConcat(a: string, b: string, c: char)
    ensures Split(a + [c] + b, c) == Split(a, c) + Split(b, c)
    decreases |a|
  {
    var s := a + [c] + b;
    match IndexOf(a, c)
    case None =>
      assert forall j :: 0 <= j < |a| ==> s[j] == a[j];
      IndexOfFirst(s, c, |a|);
      assert s[..|a|] == a && s[|a| + 1..] == b;
    case Some(k) =>
      assert forall j :: 0 <= j <= k ==> s[j] == a[j];
      IndexOfFirst(s, c, k);
      assert s[..k] == a[..k];
      assert s[k + 1..] == a[k + 1..] + [c] + b;
      SplitConcat(a[k + 1..], b, c);
      AppendAssoc([a[..k]], Split(a[k + 1..], c), Split(b, c));
  }

  lemma {:induction false} NonEmptyConcat(xs: seq<string>, ys: seq<string>)
    ensures NonEmpty(xs + ys) == NonEmpty(xs) + NonEmpty(ys)
  {
    if xs != [] {
      assert (xs + ys)[1..] == xs[1..] + ys;
      NonEmptyConcat(xs[1..], ys);
    } else {
      assert xs + ys == ys;
    }
  }

  /** Without a display name, a collection `.../<name>/` is called `<name>`. */
  lemma NameFromLastSegment(prefix: string, segment: string)
    requires segment != "" && !HasChar(segment, '/')
    ensures NameOf(prefix + "/" + segment + "/", None) == Some(segment)
  {
    var href := prefix + "/" + segment + "/";
    assert href == prefix + ['/'] + (segment + ['/'] + "");
    SplitConcat(prefix, segment + ['/'] + "", '/');
    SplitConcat(segment, "", '/');
    assert Split("", '/') == [""];
    assert Split(segment, '/') == [segment];
    NonEmptyConcat(Split(prefix, '/'), [segment] + [""]);
    NonEmptyConcat([segment], [""]);
  }

  function CalendarOf(e: Entry): Calendar
    requires e.href.Some?
  {
    Calendar(e.href.value, NameOf(e.href.value, e.displayName))
  }

  /** The calendars of the discovery reply, in reply order. */
  function CalendarsOf(entries: seq<Entry>, user: string): seq<Calendar> {
    if entries == [] then []
    else
      var last := entries[|entries| - 1];
      CalendarsOf(entries[..|entries| - 1], user) + (if Kept(last, user) then [CalendarOf(last)] else [])
  }

  /** A calendar is listed iff it comes from a kept entry. */
  lemma {:induction false} CalendarsOfMembers(entries: seq<Entry>, user: string, c: Calendar)
    ensures c in CalendarsOf(entries, user) <==> exists e :: e in entries && Kept(e, user) && c == CalendarOf(e)
  {
    if entries != [] {
      var front := entries[..|entries| - 1];
      CalendarsOfMembers(front, user, c);
      assert entries == front + [entries[|entries| - 1]];
    }
  }

  /** The discovery loop. */
  method DiscoverCalendars(entries: seq<Entry>, user: string) returns (calendars: seq<Calendar>)
    ensures calendars == CalendarsOf(entries, user)
  {
    calendars := [];
    var i := 0;
    while i < |entries|
      invariant 0 <= i <= |entries|
      invariant calendars == CalendarsOf(entries[..i], user)
    {
      var e := entries[i];
      assert entries[..i + 1][..i] == entries[..i];
      if e.isCalendar && e.href.Some? && e.href.value != "" && !EndsWith(e.href.value, "/" + user + "/") {
        calendars := calendars + [Calendar(e.href.value, NameOf(e.href.value, e.displayName))];
      }
      i := i + 1;
    }
    assert entries[..i] == entries;
  }

  // ---------------------------------------------------------------- events

  /** `new Date(start)` of a parsed value: local values are shifted by the host offset. */
  function StartInstant(v: DateValue, offset: int): int
    requires ValidValue(v)
  {
    match v
    case Utc(y, mo, d, h, mi, s) => EpochMillis(y, mo, d, h, mi, s)
    case Local(y, mo, d, h, mi, s) => EpochMillis(y, mo, d, h, mi, s) - offset
    case LocalDate(y, mo, d) => EpochMillis(y, mo, d, 0, 0, 0) - offset
  }

  predicate AllValid(evs: seq<Event>) {
    forall e :: e in evs ==> ValidValue(e.start)
  }

  /** The event of one non-empty `calendar-data` text, tagged with the calendar's name. */
  function TaggedEvent(data: string, name: Option<string>): (r: Option<Event>)
    ensures r.Some? ==> data != "" && ValidValue(r.value.start) && r.value.calendar == name
    ensures r.Some? <==> data != "" && EventOf(Region(SplitLines(data))).Some?
  {
    if data == "" then None
    else match EventOf(Region(SplitLines(data)))
      case None => None
      case Some(ev) => Some(ev.(calendar := name))
  }

  /** The events of one REPORT reply, in reply order. */
  function EventsIn(datas: seq<string>, name: Option<string>): (r: seq<Event>)
    ensures AllValid(r) && forall e :: e in r ==> e.calendar == name
  {
    if datas == [] then []
    else
      var t := TaggedEvent(datas[|datas| - 1], name);
      EventsIn(datas[..|datas| - 1], name) + (if t.Some? then [t.value] else [])
  }

  /** How the REPORT of a calendar URL for the window settled: rejected, a
      non-ok status (`None`), or the `calendar-data` texts of the reply. */
  type ReportOracle = (string, int, int) -> Settled<Option<seq<string>>>

  /** Whether the REPORT of a calendar rejects. */
  predicate Rejects(c: Calendar, base: string, w: Window, report: ReportOracle) {
    report(base + c.href, w.start, w.end).Rejected?
  }

  /** The events one calendar contributes: none when its REPORT has a non-ok
      status, the rejection's message when it rejects. */
  function ReportEvents(c: Calendar, base: string, w: Window, report: ReportOracle): (r: Result<seq<Event>, string>)
    ensures r.Err? <==> Rejects(c, base, w, report)
    ensures r.Err? ==> r.error == report(base + c.href, w.start, w.end).reason
    ensures r.Ok? ==> AllValid(r.value) && forall e :: e in r.value ==> e.calendar == c.name
  {
    match report(base + c.href, w.start, w.end)
    case Rejected(m) => Err(m)
    case Resolved(None) => Ok([])
    case Resolved(Some(datas)) => Ok(EventsIn(datas, c.name))
  }

  /** Two stretches of the REPORT loop, one after the other: the first
      rejection ends it. */
  function Chain(a: Result<seq<Event>, string>, b: Result<seq<Event>, string>): Result<seq<Event>, string> {
    match a
    case Err(m) => Err(m)
    case Ok(x) => match b case Err(m) => Err(m) case Ok(y) => Ok(x + y)
  }

  lemma ChainAssoc(a: Result<seq<Event>, string>, b: Result<seq<Event>, string>, c: Result<seq<Event>, string>)
    ensures Chain(Chain(a, b), c) == Chain(a, Chain(b, c))
  {
    if a.Ok? && b.Ok? && c.Ok? {
      AppendAssoc(a.value, b.value, c.value);
    }
  }

  /** The events the REPORT loop gathers, calendar by calendar, or the message
      of the first REPORT that rejects. */
  function Collected(calendars: seq<Calendar>, base: string, w: Window, report: ReportOracle): Result<seq<Event>, string>
  {
    if calendars == [] then Ok([])
    else Chain(Collected(calendars[..|calendars| - 1], base, w, report), ReportEvents(calendars[|calendars| - 1], base, w, report))
  }

  /** How many REPORT requests the loop makes: all of them, or those up to
      and including the first that rejects. */
  function Reached(calendars: seq<Calendar>, base: string, w: Window, report: ReportOracle): (n: nat)
    ensures n <= |calendars|
  {
    if calendars == [] then 0
    else if Collected(calendars[..|calendars| - 1], base, w, report).Err? then Reached(calendars[..|calendars| - 1], base, w, report)
    else |calendars|
  }

  /** The loop gathers events exactly when no REPORT rejects, and then asks
      every calendar; otherwise it fails with the message of the first
      rejecting calendar, which is the last one asked. */
  lemma {:induction false} CollectedOutcome(calendars: seq<Calendar>, base: string, w: Window, report: ReportOracle)
    ensures Collected(calendars, base, w, report).Ok? <==> forall k :: 0 <= k < |calendars| ==> !Rejects(calendars[k], base, w, report)
    ensures Collected(calendars, base, w, report).Ok? ==> Reached(calendars, base, w, report) == |calendars|
    ensures Collected(calendars, base, w, report).Err? ==>
      var n := Reached(calendars, base, w, report);
      1 <= n && Rejects(calendars[n - 1], base, w, report) &&
      (forall j :: 0 <= j < n - 1 ==> !Rejects(calendars[j], base, w, report)) &&
      Collected(calendars, base, w, report) == Err(report(base + calendars[n - 1].href, w.start, w.end).reason)
  {
    if calendars != [] {
      var front := calendars[..|calendars| - 1];
      var last := calendars[|calendars| - 1];
      CollectedOutcome(front, base, w, report);
      assert forall k :: 0 <= k < |front| ==> front[k] == calendars[k];
      if Collected(front, base, w, report).Ok? {
        if Collected(calendars, base, w, report).Err? {
          assert Rejects(last, base, w, report);
        }
      }
    }
  }

  /** Every gathered event has a start `new Date` accepts. */
  lemma {:induction false} CollectedValid(calendars: seq<Calendar>, base: string, w: Window, report: ReportOracle)
    ensures Collected(calendars, base, w, report).Ok? ==> AllValid(Collected(calendars, base, w, report).value)
  {
    if calendars != [] {
      CollectedValid(calendars[..|calendars| - 1], base, w, report);
    }
  }

  /** Every gathered event is tagged with the name of a calendar it came from. */
  lemma {:induction false} CollectedNames(calendars: seq<Calendar>, base: string, w: Window, report: ReportOracle)
    ensures var g := Collected(calendars, base, w, report);
      g.Ok? ==> forall e :: e in g.value ==> exists c :: c in calendars && e.calendar == c.name
  {
    if calendars != [] {
      var front := calendars[..|calendars| - 1];
      var c := calendars[|calendars| - 1];
      var g := Collected(calendars, base, w, report);
      CollectedNames(front, base, w, report);
      if g.Ok? {
        forall e | e in g.value ensures exists c' :: c' in calendars && e.calendar == c'.name {
          if e in Collected(front, base, w, report).value {
            var c' :| c' in front && e.calendar == c'.name;
            assert c' in calendars;
          } else {
            assert e in ReportEvents(c, base, w, report).value;
            assert c in calendars;
          }
        }
      }
    }
  }

  lemma {:induction false} CollectedConcat(xs: seq<Calendar>, ys: seq<Calendar>, base: string, w: Window, report: ReportOracle)
    ensures Collected(xs + ys, base, w, report) == Chain(Collected(xs, base, w, report), Collected(ys, base, w, report))
    decreases |ys|
  {
    if ys == [] {
      assert xs + ys == xs;
      var g := Collected(xs, base, w, report);
      if g.Ok? {
        assert g.value + [] == g.value;
      }
    } else {
      var ys' := ys[..|ys| - 1];
      var last := ReportEvents(ys[|ys| - 1], base, w, report);
      DropLastOfAppend(xs, ys);
      assert Collected(xs + ys, base, w, report) == Chain(Collected(xs + ys', base, w, report), last);
      CollectedConcat(xs, ys', base, w, report);
      ChainAssoc(Collected(xs, base, w, report), Collected(ys', base, w, report), last);
    }
  }

  /** Each calendar's REPORT takes its place in the loop: the calendars before
      it, then its own events (none for a non-ok status), then the calendars
      after it, the first rejection ending the loop. */
  lemma CalendarContribution(calendars: seq<Calendar>, k: nat, base: string, w: Window, report: ReportOracle)
    requires k < |calendars|
    ensures Collected(calendars, base, w, report) ==
      Chain(Chain(Collected(calendars[..k], base, w, report), ReportEvents(calendars[k], base, w, report)),
            Collected(calendars[k + 1..], base, w, report))
  {
    assert Collected([calendars[k]], base, w, report) == Chain(Ok([]), ReportEvents(calendars[k], base, w, report)) by {
      assert [calendars[k]][..0] == [];
    }
    var mine := ReportEvents(calendars[k], base, w, report);
    if mine.Ok? {
      assert [] + mine.value == mine.value;
    }
    assert calendars == calendars[..k] + [calendars[k]] + calendars[k + 1..];
    CollectedConcat(calendars[..k] + [calendars[k]], calendars[k + 1..], base, w, report);
    CollectedConcat(calendars[..k], [calendars[k]], base, w, report);
  }

  // ---------------------------------------------------------------- the sort

  /** Sorted by a numeric key, ties allowed. */
  predicate SortedBy<T>(s: seq<T>, key: T -> int) {
    forall i, j :: 0 <= i < j < |s| ==> key(s[i]) <= key(s[j])
  }

  /** Insert after every element whose key is not larger (keeps the sort stable). */
  function InsertBy<T>(e: T, s: seq<T>, key: T -> int): (r: seq<T>)
    ensures multiset(r) == multiset(s) + multiset{e}
  {
    if s == [] then [e]
    else if key(e) < key(s[0]) then [e] + s
    else
      assert s == [s[0]] + s[1..];
      [s[0]] + InsertBy(e, s[1..], key)
  }

  lemma {:induction false} InsertKeepsSorted<T>(e: T, s: seq<T>, key: T -> int)
    requires SortedBy(s, key)
    ensures SortedBy(InsertBy(e, s, key), key)
  {
    if s != [] && key(s[0]) <= key(e) {
      var rest := InsertBy(e, s[1..], key);
      InsertKeepsSorted(e, s[1..], key);
      var r := [s[0]] + rest;
      forall k | 0 <= k < |rest| ensures key(s[0]) <= key(rest[k]) {
        assert rest[k] in multiset(s[1..]) + multiset{e};
        if rest[k] != e {
          assert rest[k] in s[1..];
          var i :| 0 <= i < |s[1..]| && s[1..][i] == rest[k];
          assert s[1..][i] == s[i + 1];
        }
      }
      forall i, j | 0 <= i < j < |r| ensures key(r[i]) <= key(r[j]) {
        if i == 0 {
          assert r[j] == rest[j - 1];
        } else {
          assert r[i] == rest[i - 1] && r[j] == rest[j - 1];
        }
      }
    }
  }

  /** A stable insertion sort by key. */
  function SortBy<T>(s: seq<T>, key: T -> int): (r: seq<T>)
    ensures SortedBy(r, key)
    ensures multiset(r) == multiset(s)
  {
    if s == [] then []
    else
      var front := s[..|s| - 1];
      assert s == front + [s[|s| - 1]];
      var sorted := SortBy(front, key);
      InsertKeepsSorted(s[|s| - 1], sorted, key);
      InsertBy(s[|s| - 1], sorted, key)
  }

  /** The comparator key `new Date(e.start)`. */
  function StartKey(offset: int): Event -> int {
    (e: Event) => if ValidValue(e.start) then StartInstant(e.start, offset) else 0
  }

  /** Events in order of their start instants. */
  predicate SortedByStart(evs: seq<Event>, offset: int)
    requires AllValid(evs)
  {
    forall i, j :: 0 <= i < j < |evs| ==> StartInstant(evs[i].start, offset) <= StartInstant(evs[j].start, offset)
  }

  /** `allEvents.sort((a, b) => new Date(a.start) - new Date(b.start))`, a
      stable sort in the host. */
  function SortByStart(evs: seq<Event>, offset: int): (r: seq<Event>)
    requires AllValid(evs)
    ensures AllValid(r) && multiset(r) == multiset(evs)
    ensures SortedByStart(r, offset)
  {
    var r := SortBy(evs, StartKey(offset));
    assert forall e :: e in r ==> e in multiset(evs);
    r
  }

  // ---------------------------------------------------------------- the whole call

  /** The ok flag, status and extracted entries of the PROPFIND reply. */
  datatype DiscoveryReply = DiscoveryReply(ok: bool, status: nat, entries: seq<Entry>)

  /** `${nextcloudUrl}/remote.php/dav/calendars/${nextcloudUser}/`. */
  function DiscoveryUrl(url: string, user: string): string {
    url + "/remote.php/dav/calendars/" + user + "/"
  }

  /** The outcome of `getCalendarEvents`: the failure it throws, or the sorted events. */
  function CalendarEvents(url: string, user: string, password: string, keyword: string, now: int, offset: int,
                          discover: string -> Settled<DiscoveryReply>, report: ReportOracle): (r: Result<seq<Event>, CalendarError>)
    ensures r.Ok? ==> AllValid(r.value) && SortedByStart(r.value, offset)
    ensures CredentialsMissing(url, user, password) ==> r == Err(NoCredentials)
    ensures !CredentialsMissing(url, user, password) && discover(DiscoveryUrl(url, user)).Rejected? ==>
      r == Err(RequestFailed(discover(DiscoveryUrl(url, user)).reason))
    ensures (!CredentialsMissing(url, user, password) && discover(DiscoveryUrl(url, user)).Resolved? &&
             !discover(DiscoveryUrl(url, user)).value.ok) ==> r == Err(DiscoveryFailed(discover(DiscoveryUrl(url, user)).value.status))
  {
    if CredentialsMissing(url, user, password) then Err(NoCredentials)
    else match discover(DiscoveryUrl(url, user))
      case Rejected(m) => Err(RequestFailed(m))
      case Resolved(reply) =>
        if !reply.ok then Err(DiscoveryFailed(reply.status))
        else
          var calendars := CalendarsOf(reply.entries, user);
          var w := WindowOf(keyword, now, offset);
          match Collected(calendars, url, w, report)
          case Err(m) => Err(RequestFailed(m))
          case Ok(evs) =>
            CollectedValid(calendars, url, w, report);
            Ok(SortByStart(evs, offset))
  }

  /** The URLs requested: the PROPFIND, then a REPORT per kept calendar until
      one rejects. */
  function Requests(url: string, user: string, password: string, keyword: string, now: int, offset: int,
                    discover: string -> Settled<DiscoveryReply>, report: ReportOracle): (r: seq<string>)
    ensures CredentialsMissing(url, user, password) <==> r == []
  {
    if CredentialsMissing(url, user, password) then []
    else
      var settled := discover(DiscoveryUrl(url, user));
      var calendars := if settled.Resolved? && settled.value.ok then CalendarsOf(settled.value.entries, user) else [];
      [DiscoveryUrl(url, user)] + ReportUrls(url, calendars[..Reached(calendars, url, WindowOf(keyword, now, offset), report)])
  }

  /** The REPORT URL of each calendar, in order. */
  function ReportUrls(base: string, calendars: seq<Calendar>): (r: seq<string>)
    ensures |r| == |calendars| && forall k :: 0 <= k < |calendars| ==> r[k] == base + calendars[k].href
  {
    if calendars == [] then []
    else ReportUrls(base, calendars[..|calendars| - 1]) + [base + calendars[|calendars| - 1].href]
  }

  /** The inner loop over one REPORT reply: each non-empty `calendar-data`
      that parses is pushed, tagged with the calendar's name. */
  method PushReplyEvents(allEvents: seq<Event>, datas: seq<string>, name: Option<string>) returns (out: seq<Event>)
    ensures out == allEvents + EventsIn(datas, name)
  {
    out := allEvents;
    var j := 0;
    while j < |datas|
      invariant 0 <= j <= |datas|
      invariant out == allEvents + EventsIn(datas[..j], name)
    {
      var t := ReplyEvent(datas[j], name);
      var added := if t.Some? then [t.value] else [];
      out := out + added;
      EventsInStep(datas, j, name);
      AppendAssoc(allEvents, EventsIn(datas[..j], name), added);
      j := j + 1;
    }
    assert datas[..j] == datas;
  }

  /** The body of the inner loop for one `calendar-data`: skipped when empty,
      parsed otherwise, and tagged with the calendar's name when it gives an event. */
  method ReplyEvent(data: string, name: Option<string>) returns (r: Option<Event>)
    ensures r == TaggedEvent(data, name)
  {
    r := None;
    if data != "" {
      var event := ParseICalEvent(data);
      if event.Some? {
        r := Some(event.value.(calendar := name));
      }
    }
  }

  lemma EventsInStep(datas: seq<string>, j: nat, name: Option<string>)
    requires j < |datas|
    ensures var t := TaggedEvent(datas[j], name);
      EventsIn(datas[..j + 1], name) == EventsIn(datas[..j], name) + (if t.Some? then [t.value] else [])
  {
    assert datas[..j + 1][..j] == datas[..j];
  }

  lemma CollectedStep(calendars: seq<Calendar>, i: nat, base: string, w: Window, report: ReportOracle)
    requires i < |calendars|
    ensures Collected(calendars[..i + 1], base, w, report) ==
      Chain(Collected(calendars[..i], base, w, report), ReportEvents(calendars[i], base, w, report))
    ensures ReportUrls(base, calendars[..i + 1]) == ReportUrls(base, calendars[..i]) + [base + calendars[i].href]
  {
    assert calendars[..i + 1][..i] == calendars[..i];
  }

  /** Once the calendars before `i` have not rejected, a rejection at `i` ends
      the loop with its message, `i` being the last calendar asked. */
  lemma RejectionStops(calendars: seq<Calendar>, i: nat, base: string, w: Window, report: ReportOracle)
    requires i < |calendars| && Collected(calendars[..i], base, w, report).Ok? && Rejects(calendars[i], base, w, report)
    ensures Collected(calendars, base, w, report) == Err(report(base + calendars[i].href, w.start, w.end).reason)
    ensures Reached(calendars, base, w, report) == i + 1
  {
    CollectedOutcome(calendars[..i], base, w, report);
    CollectedOutcome(calendars, base, w, report);
    assert forall j :: 0 <= j < i ==> calendars[..i][j] == calendars[j];
  }

  /** The REPORT loop: one request per calendar; a non-ok one is skipped and a
      rejected one ends the loop with its message. */
  method ReportAll(calendars: seq<Calendar>, url: string, w: Window, report: ReportOracle)
    returns (r: Result<seq<Event>, string>, requests: seq<string>)
    ensures r == Collected(calendars, url, w, report)
    ensures requests == ReportUrls(url, calendars[..Reached(calendars, url, w, report)])
  {
    var allEvents := [];
    requests := [];
    var i := 0;
    while i < |calendars|
      invariant 0 <= i <= |calendars|
      invariant Collected(calendars[..i], url, w, report) == Ok(allEvents)
      invariant requests == ReportUrls(url, calendars[..i])
    {
      var calendar := calendars[i];
      var calendarUrl := url + calendar.href;
      requests := requests + [calendarUrl];
      CollectedStep(calendars, i, url, w, report);
      var outcome := report(calendarUrl, w.start, w.end);
      if outcome.Rejected? {
        RejectionStops(calendars, i, url, w, report);
        return Err(outcome.reason), requests;
      }
      if outcome.value.Some? {
        allEvents := PushReplyEvents(allEvents, outcome.value.value, calendar.name);
      } else {
        assert allEvents + [] == allEvents;
      }
      i := i + 1;
    }
    assert calendars[..i] == calendars;
    CollectedOutcome(calendars, url, w, report);
    r := Ok(allEvents);
  }

  method GetCalendarEvents(url: string, user: string, password: string, keyword: string, now: int, offset: int,
                           discover: string -> Settled<DiscoveryReply>, report: ReportOracle)
    returns (r: Result<seq<Event>, CalendarError>, requests: seq<string>)
    ensures r == CalendarEvents(url, user, password, keyword, now, offset, discover, report)
    ensures requests == Requests(url, user, password, keyword, now, offset, discover, report)
  {
    if CredentialsMissing(url, user, password) {
      return Err(NoCredentials), [];
    }
    var discoveryUrl := DiscoveryUrl(url, user);
    requests := [discoveryUrl];
    var settled := discover(discoveryUrl);
    if settled.Rejected? {
      assert requests == [discoveryUrl] + ReportUrls(url, []);
      return Err(RequestFailed(settled.reason)), requests;
    }
    var reply := settled.value;
    if !reply.ok {
      assert requests == [discoveryUrl] + ReportUrls(url, []);
      return Err(DiscoveryFailed(reply.status)), requests;
    }
    var calendars := DiscoverCalendars(reply.entries, user);
    var w := WindowOf(keyword, now, offset);
    var gathered, reportUrls := ReportAll(calendars, url, w, report);
    requests := requests + reportUrls;
    WhenDiscovered(url, user, password, keyword, now, offset, discover, report);
    match gathered
    case Err(m) =>
      r := Err(RequestFailed(m));
    case Ok(allEvents) =>
      r := Ok(SortByStart(allEvents, offset));
  }

  /** The outcome and the requests once discovery has succeeded. */
  lemma WhenDiscovered(url: string, user: string, password: string, keyword: string, now: int, offset: int,
                       discover: string -> Settled<DiscoveryReply>, report: ReportOracle)
    requires !CredentialsMissing(url, user, password)
    requires discover(DiscoveryUrl(url, user)).Resolved? && discover(DiscoveryUrl(url, user)).value.ok
    ensures var calendars := CalendarsOf(discover(DiscoveryUrl(url, user)).value.entries, user);
      var g := Collected(calendars, url, WindowOf(keyword, now, offset), report);
      (g.Ok? ==> AllValid(g.value)) &&
      CalendarEvents(url, user, password, keyword, now, offset, discover, report) ==
        (if g.Ok? then Ok(SortByStart(g.value, offset)) else Err(RequestFailed(g.error))) &&
      Requests(url, user, password, keyword, now, offset, discover, report) ==
        [DiscoveryUrl(url, user)] + ReportUrls(url, calendars[..Reached(calendars, url, WindowOf(keyword, now, offset), report)])
  {
    CollectedValid(CalendarsOf(discover(DiscoveryUrl(url, user)).value.entries, user), url, WindowOf(keyword, now, offset), report);
  }

  // ---------------------------------------------------------------- properties of the whole call

  /** The result is exactly the gathered events reordered, and every returned
      event is tagged with the name of a kept discovery entry. */
  lemma ResultFromKeptCalendars(url: string, user: string, password: string, keyword: string, now: int, offset: int,
                                discover: string -> Settled<DiscoveryReply>, report: ReportOracle)
    requires CalendarEvents(url, user, password, keyword, now, offset, discover, report).Ok?
    ensures var settled := discover(DiscoveryUrl(url, user));
      !CredentialsMissing(url, user, password) && settled.Resolved? && settled.value.ok &&
      var g := Collected(CalendarsOf(settled.value.entries, user), url, WindowOf(keyword, now, offset), report);
      var evs := CalendarEvents(url, user, password, keyword, now, offset, discover, report).value;
      g.Ok? && multiset(evs) == multiset(g.value) &&
      forall e :: e in evs ==> exists d :: d in settled.value.entries && Kept(d, user) && e.calendar == CalendarOf(d).name
  {
    var reply := discover(DiscoveryUrl(url, user)).value;
    var calendars := CalendarsOf(reply.entries, user);
    var w := WindowOf(keyword, now, offset);
    var evs := CalendarEvents(url, user, password, keyword, now, offset, discover, report).value;
    CollectedNames(calendars, url, w, report);
    forall e | e in evs ensures exists d :: d in reply.entries && Kept(d, user) && e.calendar == CalendarOf(d).name {
      assert e in multiset(Collected(calendars, url, w, report).value);
      var c :| c in calendars && e.calendar == c.name;
      CalendarsOfMembers(reply.entries, user, c);
    }
  }

  /** In a successful call no REPORT rejected; a calendar whose REPORT has a
      non-ok status contributes nothing, and one whose REPORT succeeds
      contributes every event of its reply. */
  lemma CalendarOutcome(url: string, user: string, password: string, keyword: string, now: int, offset: int,
                        discover: string -> Settled<DiscoveryReply>, report: ReportOracle, k: nat)
    requires CalendarEvents(url, user, password, keyword, now, offset, discover, report).Ok?
    requires discover(DiscoveryUrl(url, user)).Resolved?
    requires k < |CalendarsOf(discover(DiscoveryUrl(url, user)).value.entries, user)|
    ensures var calendars := CalendarsOf(discover(DiscoveryUrl(url, user)).value.entries, user);
      var w := WindowOf(keyword, now, offset);
      var evs := CalendarEvents(url, user, password, keyword, now, offset, discover, report).value;
      var before := Collected(calendars[..k], url, w, report);
      var after := Collected(calendars[k + 1..], url, w, report);
      var o := report(url + calendars[k].href, w.start, w.end);
      o.Resolved? && before.Ok? && after.Ok? &&
      (o.value.None? ==> multiset(evs) == multiset(before.value + after.value)) &&
      (o.value.Some? ==> multiset(evs) == multiset(before.value + after.value) + multiset(EventsIn(o.value.value, calendars[k].name)))
  {
    var calendars := CalendarsOf(discover(DiscoveryUrl(url, user)).value.entries, user);
    var w := WindowOf(keyword, now, offset);
    CalendarContribution(calendars, k, url, w, report);
    var before := Collected(calendars[..k], url, w, report);
    var mine := ReportEvents(calendars[k], url, w, report);
    var after := Collected(calendars[k + 1..], url, w, report);
    assert before.Ok? && mine.Ok? && after.Ok?;
    assert Collected(calendars, url, w, report).value == before.value + mine.value + after.value;
  }

  /** The first REPORT that rejects ends the call with its message: the
      calendars after it are never asked. */
  lemma CalendarRejection(url: string, user: string, password: string, keyword: string, now: int, offset: int,
                          discover: string -> Settled<DiscoveryReply>, report: ReportOracle, k: nat)
    requires !CredentialsMissing(url, user, password)
    requires discover(DiscoveryUrl(url, user)).Resolved? && discover(DiscoveryUrl(url, user)).value.ok
    requires var calendars := CalendarsOf(discover(DiscoveryUrl(url, user)).value.entries, user);
      var w := WindowOf(keyword, now, offset);
      k < |calendars| && Rejects(calendars[k], url, w, report) &&
      forall j :: 0 <= j < k ==> !Rejects(calendars[j], url, w, report)
    ensures var calendars := CalendarsOf(discover(DiscoveryUrl(url, user)).value.entries, user);
      var w := WindowOf(keyword, now, offset);
      CalendarEvents(url, user, password, keyword, now, offset, discover, report) ==
        Err(RequestFailed(report(url + calendars[k].href, w.start, w.end).reason)) &&
      Requests(url, user, password, keyword, now, offset, discover, report) ==
        [DiscoveryUrl(url, user)] + ReportUrls(url, calendars[..k + 1])
  {
    var calendars := CalendarsOf(discover(DiscoveryUrl(url, user)).value.entries, user);
    var w := WindowOf(keyword, now, offset);
    CollectedOutcome(calendars[..k], url, w, report);
    assert forall j :: 0 <= j < k ==> calendars[..k][j] == calendars[j];
    RejectionStops(calendars, k, url, w, report);
    WhenDiscovered(url, user, password, keyword, now, offset, discover, report);
  }
}
