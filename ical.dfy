/** The iCalendar reader of the calendar pipeline (src/api/calendar.js, copied in
    server.js): a line scanner over the content lines of RFC 5545 (section 3.1,
    without unfolding) that keeps SUMMARY (section 3.8.1.12), DTSTART (section
    3.8.2.4) and DTEND (section 3.8.2.2) of the first VEVENT, and reads DATE and
    DATE-TIME values (sections 3.3.4 and 3.3.5) by fixed character offsets.
    Property parameters such as TZID (section 3.2.19) and VALUE (section 3.2.20)
    are ignored. */
module ICal {
  import opened Common
  import opened CivilTime

  /** What `parseICalDate` gives before the host turns it into an ISO instant:
      a UTC date-time (trailing `Z`), a host-local date-time, or a host-local midnight. */
  datatype DateValue =
    | Utc(year: int, month: int, day: int, hour: int, minute: int, second: int)
    | Local(year: int, month: int, day: int, hour: int, minute: int, second: int)
    | LocalDate(year: int, month: int, day: int)

  /** The `RangeError` that `toISOString()` throws on an invalid `Date`. */
  datatype DateError = InvalidDate

  datatype Event = Event(summary: string, start: DateValue, end: Option<DateValue>, calendar: Option<string>)

  /** Month and day ranges that the host `Date` parser accepts (a day past the
      end of a shorter month rolls over into the next month). */
  predicate ValidDay(month: int, day: int) {
    1 <= month <= 12 && 1 <= day <= 31
  }

  /** Times the host `Date` parser accepts: 00:00:00 to 23:59:59, and 24:00:00. */
  predicate ValidTime(hour: int, minute: int, second: int) {
    (0 <= hour <= 23 && 0 <= minute <= 59 && 0 <= second <= 59) || (hour == 24 && minute == 0 && second == 0)
  }

  predicate ValidValue(v: DateValue) {
    0 <= v.year <= 9999 && ValidDay(v.month, v.day) &&
    (!v.LocalDate? ==> ValidTime(v.hour, v.minute, v.second))
  }

  /** `dateStr.substring(a, b)` read as a number, when it is exactly `b - a` digits. */
  function Field(s: string, a: nat, b: nat): (r: Option<nat>)
    requires a < b
    ensures r.Some? ==> b <= |s| && AllDigits(s[a..b]) && r.value == DigitsValue(s[a..b])
  {
    var f := Substring(s, a, b);
    if |f| == b - a && AllDigits(f) then Some(DigitsValue(f)) else None
  }

  /** `parseICalDate`: a value containing `T` is a date-time split at offsets
      0-4/4-6/6-8/9-11/11-13/13-15 (UTC iff it ends in `Z`); any other value is
      a date `YYYYMMDD` at host-local midnight. A value the host cannot read as
      a date makes `toISOString()` throw. */
  function ParseICalDate(s: string): (r: Result<DateValue, DateError>)
    ensures r.Ok? ==> ValidValue(r.value)
    ensures r.Ok? ==> (r.value.LocalDate? <==> !HasChar(s, 'T'))
    ensures r.Ok? && HasChar(s, 'T') ==> (r.value.Utc? <==> EndsWith(s, "Z"))
  {
    var y, mo, d := Field(s, 0, 4), Field(s, 4, 6), Field(s, 6, 8);
    if !(y.Some? && mo.Some? && d.Some? && y.value <= 9999 && ValidDay(mo.value, d.value)) then Err(InvalidDate)
    else if HasChar(s, 'T') then
      var h, mi, sec := Field(s, 9, 11), Field(s, 11, 13), Field(s, 13, 15);
      if !(h.Some? && mi.Some? && sec.Some? && ValidTime(h.value, mi.value, sec.value)) then Err(InvalidDate)
      else if EndsWith(s, "Z") then Ok(Utc(y.value, mo.value, d.value, h.value, mi.value, sec.value))
      else Ok(Local(y.value, mo.value, d.value, h.value, mi.value, sec.value))
    else Ok(LocalDate(y.value, mo.value, d.value))
  }

  /** The RFC 5545 basic form of a value: `YYYYMMDDTHHMMSSZ`, `YYYYMMDDTHHMMSS` or `YYYYMMDD`. */
  function FormatBasic(v: DateValue): string
    requires ValidValue(v)
  {
    var date := PadDigits(v.year, 4) + PadDigits(v.month, 2) + PadDigits(v.day, 2);
    match v
    case LocalDate(_, _, _) => date
    case Local(_, _, _, h, mi, s) => date + "T" + PadDigits(h, 2) + PadDigits(mi, 2) + PadDigits(s, 2)
    case Utc(_, _, _, h, mi, s) => date + "T" + PadDigits(h, 2) + PadDigits(mi, 2) + PadDigits(s, 2) + "Z"
  }

  lemma DigitsHaveNoT(s: string)
    requires AllDigits(s)
    ensures !HasChar(s, 'T') && !EndsWith(s, "Z")
  {
    if |s| > 0 {
      assert s[|s| - 1..][0] == s[|s| - 1];
    }
  }

  lemma FieldOfPadded(s: string, a: nat, w: nat, n: nat)
    requires 0 < w && a + w <= |s| && n < Pow10(w)
    requires s[a..a + w] == PadDigits(n, w)
    ensures Field(s, a, a + w) == Some(n)
  {
    PadDigitsValue(n, w);
  }

  lemma DatePartRoundTrip(v: DateValue, s: string)
    requires ValidValue(v)
    requires |s| >= 8 && s[..8] == PadDigits(v.year, 4) + PadDigits(v.month, 2) + PadDigits(v.day, 2)
    ensures Field(s, 0, 4) == Some(v.year) && Field(s, 4, 6) == Some(v.month) && Field(s, 6, 8) == Some(v.day)
  {
    assert Pow10(2) == 100 && Pow10(4) == 10000;
    assert s[0..4] == s[..8][0..4];
    FieldOfPadded(s, 0, 4, v.year);
    assert s[4..6] == s[..8][4..6];
    FieldOfPadded(s, 4, 2, v.month);
    assert s[6..8] == s[..8][6..8];
    FieldOfPadded(s, 6, 2, v.day);
  }

  lemma TimePartRoundTrip(h: nat, mi: nat, sec: nat, s: string)
    requires h < 100 && mi < 100 && sec < 100 && |s| >= 15
    requires s[8] == 'T' && s[9..11] == PadDigits(h, 2) && s[11..13] == PadDigits(mi, 2) && s[13..15] == PadDigits(sec, 2)
    ensures HasChar(s, 'T')
    ensures Field(s, 9, 11) == Some(h) && Field(s, 11, 13) == Some(mi) && Field(s, 13, 15) == Some(sec)
  {
    assert Pow10(2) == 100;
    FieldOfPadded(s, 9, 2, h);
    FieldOfPadded(s, 11, 2, mi);
    FieldOfPadded(s, 13, 2, sec);
  }

  lemma TimeSlices(s: string, date: string, hh: string, mm: string, ss: string, suffix: string)
    requires |date| == 8 && |hh| == 2 && |mm| == 2 && |ss| == 2
    requires s == date + "T" + hh + mm + ss + suffix
    ensures |s| == 15 + |suffix| && s[..8] == date
    ensures s[8] == 'T' && s[9..11] == hh && s[11..13] == mm && s[13..15] == ss
    ensures s[15..] == suffix
  {
    var r0 := "T" + hh + mm + ss + suffix;
    assert s == date + r0;
    var r1 := hh + mm + ss + suffix;
    assert r0 == "T" + r1;
    var r2 := mm + ss + suffix;
    assert r1 == hh + r2;
    var r3 := ss + suffix;
    assert r2 == mm + r3;
  }

  /** Reading the basic form of a valid value gives the value back. */
  lemma ParseFormatRoundTrip(v: DateValue)
    requires ValidValue(v)
    ensures ParseICalDate(FormatBasic(v)) == Ok(v)
  {
    match v
    case LocalDate(_, _, _) => DateRoundTrip(v);
    case Local(_, _, _, _, _, _) => LocalRoundTrip(v);
    case Utc(_, _, _, _, _, _) => UtcRoundTrip(v);
  }

  lemma DateRoundTrip(v: DateValue)
    requires ValidValue(v) && v.LocalDate?
    ensures ParseICalDate(FormatBasic(v)) == Ok(v)
  {
    var s := FormatBasic(v);
    DatePartRoundTrip(v, s);
    DigitsHaveNoT(s);
  }

  lemma LocalRoundTrip(v: DateValue)
    requires ValidValue(v) && v.Local?
    ensures ParseICalDate(FormatBasic(v)) == Ok(v)
  {
    var s := FormatBasic(v);
    var date := PadDigits(v.year, 4) + PadDigits(v.month, 2) + PadDigits(v.day, 2);
    var sec := PadDigits(v.second, 2);
    TimeSlices(s, date, PadDigits(v.hour, 2), PadDigits(v.minute, 2), sec, "");
    DatePartRoundTrip(v, s);
    TimePartRoundTrip(v.hour, v.minute, v.second, s);
    assert s[13..15] == sec;
    DigitsHaveNoT(s[14..]);
    assert s[|s| - 1..] == s[14..];
  }

  lemma UtcRoundTrip(v: DateValue)
    requires ValidValue(v) && v.Utc?
    ensures ParseICalDate(FormatBasic(v)) == Ok(v)
  {
    var s := FormatBasic(v);
    var date := PadDigits(v.year, 4) + PadDigits(v.month, 2) + PadDigits(v.day, 2);
    TimeSlices(s, date, PadDigits(v.hour, 2), PadDigits(v.minute, 2), PadDigits(v.second, 2), "Z");
    DatePartRoundTrip(v, s);
    TimePartRoundTrip(v.hour, v.minute, v.second, s);
    assert s[|s| - 1..] == s[15..];
  }

  lemma ExampleDigits()
    ensures DigitChar(0) == '0' && DigitChar(1) == '1' && DigitChar(2) == '2' && DigitChar(4) == '4'
    ensures DigitChar(5) == '5' && DigitChar(6) == '6'
  {
  }

  lemma ExampleYear()
    ensures PadDigits(2025, 4) == "2025"
  {
    ExampleDigits();
    assert PadDigits(2, 1) == "2";
    assert PadDigits(20, 2) == "20";
    assert PadDigits(202, 3) == "202";
  }

  lemma ExampleMonthDay()
    ensures PadDigits(6, 2) == "06" && PadDigits(15, 2) == "15"
  {
    ExampleDigits();
    assert PadDigits(0, 1) == "0";
    assert PadDigits(1, 1) == "1";
  }

  lemma ExampleTime()
    ensures PadDigits(14, 2) == "14" && PadDigits(0, 2) == "00" && PadDigits(0, 3) == "000"
  {
    ExampleDigits();
    assert PadDigits(0, 1) == "0";
    assert PadDigits(1, 1) == "1";
  }

  lemma FormatUtcParts(v: DateValue)
    requires v.Utc? && ValidValue(v)
    ensures FormatBasic(v) == FormatBasic(LocalDate(v.year, v.month, v.day)) + "T" +
      PadDigits(v.hour, 2) + PadDigits(v.minute, 2) + PadDigits(v.second, 2) + "Z"
  {
  }

  lemma ExampleClock()
    ensures PadDigits(14, 2) + PadDigits(0, 2) + PadDigits(0, 2) == "140000"
  {
    ExampleTime();
  }

  lemma UtcExampleText()
    ensures FormatBasic(Utc(2025, 6, 15, 14, 0, 0)) == "20250615T140000Z"
  {
    FormatUtcParts(Utc(2025, 6, 15, 14, 0, 0));
    DateExampleText();
    ExampleClock();
    UtcExampleJoin(FormatBasic(LocalDate(2025, 6, 15)), PadDigits(14, 2), PadDigits(0, 2), PadDigits(0, 2));
  }

  lemma UtcExampleJoin(date: string, h: string, mi: string, sec: string)
    requires date == "20250615" && h + mi + sec == "140000"
    ensures date + "T" + h + mi + sec + "Z" == "20250615T140000Z"
  {
    assert date + "T" + h + mi + sec + "Z" == date + "T" + (h + mi + sec) + "Z";
  }

  /** `20250615T140000Z` is the UTC instant 2025-06-15 14:00:00. */
  lemma UtcExample()
    ensures ParseICalDate("20250615T140000Z") == Ok(Utc(2025, 6, 15, 14, 0, 0))
  {
    UtcExampleText();
    ParseFormatRoundTrip(Utc(2025, 6, 15, 14, 0, 0));
  }

  // ---------------------------------------------------------------- content lines

  predicate EndsWithCR(s: string) {
    |s| > 0 && s[|s| - 1] == '\r'
  }

  /** `icalData.split(/\r?\n/)`: split at every LF, and drop a CR just before it. */
  function SplitLines(text: string): (lines: seq<string>)
    ensures |lines| >= 1
  {
    var parts := Split(text, '\n');
    seq(|parts|, k requires 0 <= k < |parts| =>
      if k < |parts| - 1 && EndsWithCR(parts[k]) then parts[k][..|parts[k]| - 1] else parts[k])
  }

  /** Lines put back together, each break a CRLF or a bare LF as `crlf` says. */
  function JoinLines(lines: seq<string>, crlf: seq<bool>): string
    requires |lines| >= 1 && |crlf| == |lines| - 1
  {
    if |lines| == 1 then lines[0]
    else lines[0] + (if crlf[0] then "\r\n" else "\n") + JoinLines(lines[1..], crlf[1..])
  }

  /** Which line breaks of a text are CRLF: those whose LF follows a CR. */
  function CrlfBreaks(text: string): (crlf: seq<bool>)
    ensures |crlf| == |Split(text, '\n')| - 1
  {
    var parts := Split(text, '\n');
    seq(|parts| - 1, k requires 0 <= k < |parts| - 1 => EndsWithCR(parts[k]))
  }

  /** The lines hold no LF and give the text back when joined at its own
      breaks; a line before a bare LF does not end in CR, so the CR of every
      CRLF was taken as part of the break. */
  lemma SplitLinesRejoin(text: string)
    ensures var lines := SplitLines(text);
      |CrlfBreaks(text)| == |lines| - 1 &&
      (forall k :: 0 <= k < |lines| ==> !HasChar(lines[k], '\n')) &&
      (forall k :: 0 <= k < |lines| - 1 ==> CrlfBreaks(text)[k] || !EndsWithCR(lines[k])) &&
      JoinLines(lines, CrlfBreaks(text)) == text
  {
    var parts := Split(text, '\n');
    var lines := SplitLines(text);
    forall k | 0 <= k < |lines| ensures !HasChar(lines[k], '\n') {
      assert !HasChar(parts[k], '\n');
      if k < |parts| - 1 && EndsWithCR(parts[k]) {
        assert forall j :: 0 <= j < |lines[k]| ==> lines[k][j] == parts[k][j];
      }
    }
    JoinLinesOfParts(parts, lines, CrlfBreaks(text));
  }

  /** Joining the lines at their breaks is joining the LF-separated pieces at LF. */
  lemma {:induction false} JoinLinesOfParts(parts: seq<string>, lines: seq<string>, crlf: seq<bool>)
    requires |parts| >= 1 && |lines| == |parts| && |crlf| == |parts| - 1
    requires forall k :: 0 <= k < |parts| - 1 ==> parts[k] == lines[k] + (if crlf[k] then "\r" else "")
    requires lines[|lines| - 1] == parts[|parts| - 1]
    ensures JoinLines(lines, crlf) == Join(parts, "\n")
  {
    if |parts| > 1 {
      JoinLinesOfParts(parts[1..], lines[1..], crlf[1..]);
      assert parts[0] == lines[0] + (if crlf[0] then "\r" else "");
    }
  }

  datatype ContentLine = ContentLine(name: string, value: string)

  /** A line with a colon: the value is the text after the first colon, the name
      the text before it up to the first semicolon (parameters dropped). */
  function ParseContentLine(line: string): (r: Option<ContentLine>)
    ensures r.None? <==> !HasChar(line, ':')
    ensures r.Some? ==> !HasChar(r.value.name, ':') && !HasChar(r.value.name, ';') && IsPrefix(r.value.name, line)
  {
    match IndexOf(line, ':')
    case None => None
    case Some(c) =>
      var full := line[..c];
      var name := match IndexOf(full, ';') case None => full case Some(k) => full[..k];
      assert forall j :: 0 <= j < |name| ==> name[j] == full[j] == line[j];
      Some(ContentLine(name, line[c + 1..]))
  }

  const BeginEvent := "BEGIN:VEVENT"
  const EndEvent := "END:VEVENT"

  // ---------------------------------------------------------------- reference definition

  /** The lines the parser reads as properties: those after the first
      `BEGIN:VEVENT`, up to the first `END:VEVENT`; nothing at all when an
      `END:VEVENT` comes before any `BEGIN:VEVENT`. */
  function Region(lines: seq<string>): seq<string> {
    if lines == [] then []
    else if lines[0] == BeginEvent then Body(lines[1..])
    else if lines[0] == EndEvent then []
    else Region(lines[1..])
  }

  function Body(lines: seq<string>): (body: seq<string>)
    ensures EndEvent !in body
  {
    if lines == [] || lines[0] == EndEvent then [] else [lines[0]] + Body(lines[1..])
  }

  predicate HasName(line: string, name: string) {
    var p := ParseContentLine(line);
    p.Some? && p.value.name == name
  }

  /** The value of the last line of `lines` with property `name`. */
  function Last(lines: seq<string>, name: string): (r: Option<string>)
  {
    if lines == [] then None
    else match Last(lines[1..], name)
      case Some(v) => Some(v)
      case None => if HasName(lines[0], name) then Some(ParseContentLine(lines[0]).value.value) else None
  }

  predicate IsDateLine(line: string) {
    HasName(line, "DTSTART") || HasName(line, "DTEND")
  }

  /** Every DTSTART and DTEND value can be read as a date. */
  predicate DatesValid(lines: seq<string>) {
    forall k :: 0 <= k < |lines| && IsDateLine(lines[k]) ==> ParseICalDate(ParseContentLine(lines[k]).value.value).Ok?
  }

  /** The event that a VEVENT body stands for: the last SUMMARY, DTSTART and
      DTEND win; there is an event iff the SUMMARY is non-empty and a DTSTART is
      present, and none when any date in the body is unreadable. */
  function EventOf(body: seq<string>): (r: Option<Event>)
    ensures r.Some? ==> ValidValue(r.value.start) && r.value.calendar.None?
    ensures r.Some? && r.value.end.Some? ==> ValidValue(r.value.end.value)
  {
    if !DatesValid(body) then None
    else match (Last(body, "SUMMARY"), Last(body, "DTSTART"))
      case (Some(s), Some(ds)) =>
        if s == "" then None
        else
          var start := ParseICalDate(ds);
          var end := Last(body, "DTEND");
          if start.Err? then None
          else if end.Some? && ParseICalDate(end.value).Err? then None
          else Some(Event(s, start.value, if end.Some? then Some(ParseICalDate(end.value).value) else None, None))
      case _ => None
  }

  // ---------------------------------------------------------------- the scanner's steps

  datatype Props = Props(summary: Option<string>, start: Option<DateValue>, end: Option<DateValue>)

  const NoProps := Props(None, None, None)

  /** One line inside the VEVENT: record SUMMARY, DTSTART or DTEND; an unreadable date throws. */
  function Apply(p: Props, line: string): Result<Props, DateError> {
    match ParseContentLine(line)
    case None => Ok(p)
    case Some(cl) =>
      if cl.name == "SUMMARY" then Ok(p.(summary := Some(cl.value)))
      else if cl.name == "DTSTART" then
        match ParseICalDate(cl.value)
        case Ok(d) => Ok(p.(start := Some(d)))
        case Err(e) => Err(e)
      else if cl.name == "DTEND" then
        match ParseICalDate(cl.value)
        case Ok(d) => Ok(p.(end := Some(d)))
        case Err(e) => Err(e)
      else Ok(p)
  }

  /** Apply every line of a body in order. */
  function ApplyAll(p: Props, lines: seq<string>): Result<Props, DateError>
    decreases |lines|
  {
    if lines == [] then Ok(p)
    else match Apply(p, lines[0])
      case Err(e) => Err(e)
      case Ok(p') => ApplyAll(p', lines[1..])
  }

  /** `inEvent` and the event object between iterations of the scanning loop. */
  datatype Phase = Outside | Inside(props: Props)

  function PropsOf(ph: Phase): Props {
    if ph.Inside? then ph.props else NoProps
  }

  /** The rest of the scanning loop from a given phase. */
  function Run(lines: seq<string>, ph: Phase): Result<Props, DateError> {
    if lines == [] then Ok(PropsOf(ph))
    else if lines[0] == BeginEvent then Run(lines[1..], Inside(PropsOf(ph)))
    else if lines[0] == EndEvent then Ok(PropsOf(ph))
    else match ph
      case Outside => Run(lines[1..], Outside)
      case Inside(p) =>
        match Apply(p, lines[0])
        case Err(e) => Err(e)
        case Ok(p') => Run(lines[1..], Inside(p'))
  }

  /** What `Props` stand for once `lines` have been applied after them. */
  function Override(p: Props, lines: seq<string>): Props {
    var s := Last(lines, "SUMMARY");
    var st := Last(lines, "DTSTART");
    var en := Last(lines, "DTEND");
    Props(if s.Some? then s else p.summary,
          if st.Some? && ParseICalDate(st.value).Ok? then Some(ParseICalDate(st.value).value) else p.start,
          if en.Some? && ParseICalDate(en.value).Ok? then Some(ParseICalDate(en.value).value) else p.end)
  }

  lemma BeginLineIsInert(p: Props)
    ensures Apply(p, BeginEvent) == Ok(p)
  {
    assert BeginEvent[5] == ':';
    assert BeginEvent[..5] == "BEGIN";
    assert forall j :: 0 <= j < 5 ==> BeginEvent[j] != ':';
  }

  /** Applying a body line by line amounts to taking its last values, unless a date is unreadable. */
  lemma {:induction false} ApplyAllMeaning(p: Props, lines: seq<string>)
    ensures ApplyAll(p, lines).Err? <==> !DatesValid(lines)
    ensures ApplyAll(p, lines).Ok? ==> ApplyAll(p, lines).value == Override(p, lines)
    decreases |lines|
  {
    if lines != [] {
      var rest := lines[1..];
      DatesValidCons(lines);
      ApplyOne(p, lines[0]);
      match Apply(p, lines[0])
      case Err(e) =>
      case Ok(p') =>
        ApplyAllMeaning(p', rest);
        if DatesValid(rest) {
          OverrideCons(p, lines);
        }
    }
  }

  /** The dates of a body are readable iff those of its tail are and its first line's is. */
  lemma DatesValidCons(lines: seq<string>)
    requires lines != []
    ensures DatesValid(lines) <==>
      DatesValid(lines[1..]) && (IsDateLine(lines[0]) ==> ParseICalDate(ParseContentLine(lines[0]).value.value).Ok?)
  {
    var rest := lines[1..];
    assert forall k :: 1 <= k < |lines| ==> lines[k] == rest[k - 1];
    if DatesValid(rest) && (IsDateLine(lines[0]) ==> ParseICalDate(ParseContentLine(lines[0]).value.value).Ok?) {
      forall k | 0 <= k < |lines| && IsDateLine(lines[k])
        ensures ParseICalDate(ParseContentLine(lines[k]).value.value).Ok?
      {
        if k > 0 { assert lines[k] == rest[k - 1]; }
      }
    }
  }

  /** One line fails exactly on an unreadable date, and otherwise overrides as a one-line body. */
  lemma ApplyOne(p: Props, line: string)
    ensures Apply(p, line).Err? <==> IsDateLine(line) && ParseICalDate(ParseContentLine(line).value.value).Err?
    ensures Apply(p, line).Ok? ==> Apply(p, line).value == Override(p, [line])
  {
    LastOne(line, "SUMMARY");
    LastOne(line, "DTSTART");
    LastOne(line, "DTEND");
    NamesDistinct();
  }

  lemma LastOne(line: string, name: string)
    ensures Last([line], name) == if HasName(line, name) then Some(ParseContentLine(line).value.value) else None
  {
    assert [line][1..] == [];
  }

  lemma LastCons(lines: seq<string>, name: string)
    requires lines != []
    ensures Last(lines, name) == if Last(lines[1..], name).Some? then Last(lines[1..], name) else Last([lines[0]], name)
  {
    LastOne(lines[0], name);
  }

  lemma NamesDistinct()
    ensures "SUMMARY" != "DTSTART" && "SUMMARY" != "DTEND" && "DTSTART" != "DTEND"
  {
    assert "SUMMARY"[0] != "DTSTART"[0];
    assert "SUMMARY"[0] != "DTEND"[0];
    assert |"DTSTART"| != |"DTEND"|;
  }

  /** Overriding by the first line and then by the rest is overriding by the whole body. */
  lemma OverrideCons(p: Props, lines: seq<string>)
    requires lines != [] && DatesValid(lines[1..])
    ensures Override(Override(p, [lines[0]]), lines[1..]) == Override(p, lines)
  {
    var rest := lines[1..];
    LastCons(lines, "SUMMARY");
    LastCons(lines, "DTSTART");
    LastCons(lines, "DTEND");
    if Last(rest, "DTSTART").Some? { LastIsDateLine(rest, "DTSTART"); }
    if Last(rest, "DTEND").Some? { LastIsDateLine(rest, "DTEND"); }
  }

  lemma {:induction false} RunInside(lines: seq<string>, p: Props)
    ensures Run(lines, Inside(p)) == ApplyAll(p, Body(lines))
  {
    if lines != [] && lines[0] != EndEvent {
      assert Body(lines) == [lines[0]] + Body(lines[1..]);
      assert Body(lines)[1..] == Body(lines[1..]);
      if lines[0] == BeginEvent {
        BeginLineIsInert(p);
        RunInside(lines[1..], p);
      } else {
        match Apply(p, lines[0])
        case Err(e) =>
        case Ok(p') => RunInside(lines[1..], p');
      }
    }
  }

  lemma {:induction false} RunOutside(lines: seq<string>)
    ensures Run(lines, Outside) == ApplyAll(NoProps, Region(lines))
  {
    if lines != [] {
      if lines[0] == BeginEvent {
        RunInside(lines[1..], NoProps);
      } else if lines[0] != EndEvent {
        RunOutside(lines[1..]);
      }
    }
  }

  /** The event the scanner's final state stands for (`event.summary && event.start`). */
  function Finish(r: Result<Props, DateError>): Option<Event> {
    match r
    case Err(_) => None
    case Ok(p) =>
      if p.summary.Some? && p.summary.value != "" && p.start.Some? then Some(Event(p.summary.value, p.start.value, p.end, None))
      else None
  }

  lemma ScannerMatchesReference(lines: seq<string>)
    ensures Finish(Run(lines, Outside)) == EventOf(Region(lines))
  {
    RunOutside(lines);
    ApplyAllMeaning(NoProps, Region(lines));
    var body := Region(lines);
    if DatesValid(body) {
      var st := Last(body, "DTSTART");
      var en := Last(body, "DTEND");
      if st.Some? { LastIsDateLine(body, "DTSTART"); }
      if en.Some? { LastIsDateLine(body, "DTEND"); }
    }
  }

  /** The last value of a property comes from a line with that name, and no later line has the name. */
  lemma {:induction false} LastIsLatest(lines: seq<string>, name: string)
    ensures Last(lines, name).Some? ==>
      exists k :: 0 <= k < |lines| && HasName(lines[k], name) && ParseContentLine(lines[k]).value.value == Last(lines, name).value &&
        forall j :: k < j < |lines| ==> !HasName(lines[j], name)
    ensures Last(lines, name).None? ==> forall j :: 0 <= j < |lines| ==> !HasName(lines[j], name)
  {
    if lines != [] {
      var rest := lines[1..];
      LastIsLatest(rest, name);
      assert forall j :: 1 <= j < |lines| ==> lines[j] == rest[j - 1];
      if Last(rest, name).Some? {
        var k :| 0 <= k < |rest| && HasName(rest[k], name) && ParseContentLine(rest[k]).value.value == Last(rest, name).value &&
          forall j :: k < j < |rest| ==> !HasName(rest[j], name);
        assert HasName(lines[k + 1], name);
        assert forall j :: k + 1 < j < |lines| ==> !HasName(lines[j], name) by {
          forall j | k + 1 < j < |lines| ensures !HasName(lines[j], name) { assert lines[j] == rest[j - 1]; }
        }
      } else {
        forall j | 0 <= j < |lines| ensures Last(lines, name).None? ==> !HasName(lines[j], name) {
          if j > 0 { assert lines[j] == rest[j - 1]; }
        }
      }
    }
  }

  lemma LastIsDateLine(body: seq<string>, name: string)
    requires name == "DTSTART" || name == "DTEND"
    requires DatesValid(body) && Last(body, name).Some?
    ensures ParseICalDate(Last(body, name).value).Ok?
  {
    LastIsLatest(body, name);
  }

  // ---------------------------------------------------------------- parseICalEvent

  /** `parseICalEvent`: scan the lines, keep the properties of the first VEVENT,
      and give the event iff it has a non-empty SUMMARY and a DTSTART; an
      unreadable DTSTART or DTEND makes the whole block give nothing. */
  method ParseICalEvent(icalData: string) returns (r: Option<Event>)
    ensures r == EventOf(Region(SplitLines(icalData)))
  {
    var lines := SplitLines(icalData);
    ScannerMatchesReference(lines);
    var inEvent := false;
    var event := NoProps;
    var i := 0;
    while i < |lines|
      invariant 0 <= i <= |lines|
      invariant !inEvent ==> event == NoProps
      invariant Run(lines, Outside) == Run(lines[i..], if inEvent then Inside(event) else Outside)
      decreases |lines| - i
    {
      var line := lines[i];
      assert lines[i..][1..] == lines[i + 1..];
      if line == BeginEvent {
        inEvent := true;
        i := i + 1;
        continue;
      }
      if line == EndEvent {
        break;
      }
      if !inEvent {
        i := i + 1;
        continue;
      }
      match ParseContentLine(line) {
        case None =>
        case Some(cl) =>
        if cl.name == "SUMMARY" {
          event := event.(summary := Some(cl.value));
        } else if cl.name == "DTSTART" {
          var d := ParseICalDate(cl.value);
          if d.Err? {
            return None;
          }
          event := event.(start := Some(d.value));
        } else if cl.name == "DTEND" {
          var d := ParseICalDate(cl.value);
          if d.Err? {
            return None;
          }
          event := event.(end := Some(d.value));
        }
      }
      i := i + 1;
    }
    if event.summary.Some? && event.summary.value != "" && event.start.Some? {
      r := Some(Event(event.summary.value, event.start.value, event.end, None));
    } else {
      r := None;
    }
  }

  // ---------------------------------------------------------------- properties

  /** An `END:VEVENT` before any `BEGIN:VEVENT` ends the scan with no event. */
  lemma {:induction false} EndBeforeBeginGivesNothing(lines: seq<string>, k: nat)
    requires k < |lines| && lines[k] == EndEvent
    requires forall j :: 0 <= j < k ==> lines[j] != BeginEvent
    ensures Region(lines) == []
    ensures EventOf(Region(lines)) == None
  {
    if k > 0 && lines[0] != EndEvent {
      EndBeforeBeginGivesNothing(lines[1..], k - 1);
    }
  }

  /** An event has a non-empty SUMMARY taken from the last SUMMARY line of the
      body, and the body has a DTSTART line. */
  lemma EventNeedsSummaryAndStart(body: seq<string>)
    requires EventOf(body).Some?
    ensures EventOf(body).value.summary != ""
    ensures exists k :: (0 <= k < |body| && HasName(body[k], "SUMMARY") &&
                         ParseContentLine(body[k]).value.value == EventOf(body).value.summary &&
                         forall j :: k < j < |body| ==> !HasName(body[j], "SUMMARY"))
    ensures exists k :: 0 <= k < |body| && HasName(body[k], "DTSTART")
  {
    LastIsLatest(body, "SUMMARY");
    LastIsLatest(body, "DTSTART");
  }

  /** A body whose last SUMMARY is non-empty, which has a DTSTART and whose dates
      all read gives an event, with those last values. */
  lemma EventWhenSummaryAndStart(body: seq<string>)
    requires DatesValid(body)
    requires Last(body, "SUMMARY").Some? && Last(body, "SUMMARY").value != ""
    requires Last(body, "DTSTART").Some?
    ensures EventOf(body).Some?
    ensures EventOf(body).value.summary == Last(body, "SUMMARY").value
    ensures EventOf(body).value.start == ParseICalDate(Last(body, "DTSTART").value).value
  {
    LastIsDateLine(body, "DTSTART");
    if Last(body, "DTEND").Some? { LastIsDateLine(body, "DTEND"); }
  }

  lemma DateExampleText()
    ensures FormatBasic(LocalDate(2025, 6, 15)) == "20250615"
  {
    ExampleYear();
    ExampleMonthDay();
    assert "2025" + "06" + "15" == "20250615";
  }

  /** Parameters between the property name and the colon are dropped. */
  lemma ParametersDropped(name: string, params: string, value: string)
    requires !HasChar(name, ':') && !HasChar(name, ';')
    requires !HasChar(params, ':')
    ensures ParseContentLine(name + ";" + params + ":" + value) == Some(ContentLine(name, value))
  {
    var head := name + ";" + params;
    var line := head + ":" + value;
    assert forall j :: 0 <= j < |head| ==> line[j] == head[j];
    assert forall j :: 0 <= j < |name| ==> head[j] == name[j];
    assert forall j :: |name| < j < |head| ==> head[j] == params[j - |name| - 1];
    IndexOfFirst(line, ':', |head|);
    assert line[..|head|] == head;
    IndexOfFirst(head, ';', |name|);
    assert head[..|name|] == name;
    assert line[|head| + 1..] == value;
  }

  lemma DateParameterIgnored()
    ensures ParseContentLine("DTSTART;VALUE=DATE:20250615") == Some(ContentLine("DTSTART", "20250615"))
  {
    assert "DTSTART;VALUE=DATE:20250615" == "DTSTART" + ";" + "VALUE=DATE" + ":" + "20250615";
    ParametersDropped("DTSTART", "VALUE=DATE", "20250615");
  }

  /** ... and the bare date is a local midnight. */
  lemma DateOnlyExample()
    ensures ParseICalDate("20250615") == Ok(LocalDate(2025, 6, 15))
  {
    DateExampleText();
    ParseFormatRoundTrip(LocalDate(2025, 6, 15));
  }
}
