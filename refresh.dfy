/** The page refresh manager (src/refresh-manager.js): the options and their
    defaults, the daily hard-refresh slot, the deployment check against the
    version endpoint, the consecutive-error counter kept by the wrapped
    `fetch`, and the one-minute rate limit of `hardRefresh`. Clocks are the
    parameter `now` (milliseconds); timers become the instants they would fire
    at; clearing storage and reloading the page are the result `reloaded`. */
module Refresh {
  import opened Common
  import opened CivilTime

  // ---------------------------------------------------------------- options

  /** One property of the constructor's `options` argument: missing, present
      but `undefined`, `null`, or a number. */
  datatype Setting = Absent | Undefined | Null | Given(value: int)

  /** The options the manager works with. */
  datatype Options = Options(dailyRefreshHour: int, dailyRefreshMinute: int,
                             deploymentCheckInterval: int, consecutiveErrorThreshold: int)

  datatype RawOptions = RawOptions(dailyRefreshHour: Setting, dailyRefreshMinute: Setting,
                                   deploymentCheckInterval: Setting, consecutiveErrorThreshold: Setting)

  /** `option ?? default`, which a nullish value falls back from and a number,
      0 included, does not. */
  function Resolve(s: Setting, default: int): (r: int)
    ensures r == default <==> !s.Given? || s.value == default
  {
    if s.Given? then s.value else default
  }

  /** The defaults are 04:30, five minutes and three errors. */
  function OptionsOf(raw: RawOptions): (o: Options)
    ensures raw == RawOptions(Absent, Absent, Absent, Absent) ==> o == Options(4, 30, 5 * MsPerMinute, 3)
  {
    Options(Resolve(raw.dailyRefreshHour, 4), Resolve(raw.dailyRefreshMinute, 30),
            Resolve(raw.deploymentCheckInterval, 5 * MsPerMinute), Resolve(raw.consecutiveErrorThreshold, 3))
  }

  /** An explicit 0 is kept; `undefined` and `null` take the default. */
  lemma ExplicitZeroKept(raw: RawOptions)
    requires raw.dailyRefreshHour == Given(0) && raw.consecutiveErrorThreshold == Given(0)
    requires raw.dailyRefreshMinute == Null && raw.deploymentCheckInterval == Undefined
    ensures OptionsOf(raw) == Options(0, 30, 300000, 0)
  {
  }

  /** One option as written: the defaults object is followed by `...options`,
      and the spread copies every property the caller wrote, `undefined` and
      `null` included, over the `??` result. */
  function SpreadSetting(s: Setting, default: int): (r: Setting)
    ensures !r.Absent?
    ensures s.Absent? ==> r == Given(default)
  {
    if s.Absent? then Given(default) else s
  }

  /** The spread agrees with `??` on missing properties and numbers, and
      undoes it on a property written as `undefined` or `null`. */
  lemma SpreadUndoesDefault(s: Setting, default: int)
    ensures s.Absent? || s.Given? ==> SpreadSetting(s, default) == Given(Resolve(s, default))
    ensures s == Undefined ==> SpreadSetting(s, default) != Given(Resolve(s, default))
    ensures s == Null ==> SpreadSetting(s, default) != Given(Resolve(s, default))
  {
  }

  /** `consecutiveErrors >= threshold` in JavaScript after the spread: `null`
      compares as 0 and `undefined` as NaN. */
  predicate ThresholdReachedAsWritten(count: nat, threshold: Setting)
    requires !threshold.Absent?
  {
    match threshold
    case Given(t) => count >= t
    case Null => true
    case Undefined => false
    case Absent => false
  }

  /** With `{ consecutiveErrorThreshold: undefined }` no error count ever forces
      a refresh, and with `null` every counted error does, where the default
      would force one at the third consecutive error. */
  lemma ThresholdAsWrittenFails(count: nat)
    ensures !ThresholdReachedAsWritten(count, SpreadSetting(Undefined, 3))
    ensures ThresholdReachedAsWritten(count, SpreadSetting(Null, 3))
    ensures count >= Resolve(Undefined, 3) <==> count >= 3
    ensures count >= Resolve(Null, 3) <==> count >= 3
  {
  }

  // ---------------------------------------------------------------- the daily slot

  /** `new Date(now.toLocaleString('en-US', { timeZone: 'America/Los_Angeles' }))`
      read as wall-clock milliseconds: the zone offset applied and the
      milliseconds dropped by the formatting. */
  function WallClock(now: int, zoneOffset: int): (w: int)
    ensures w <= now + zoneOffset < w + MsPerSecond
  {
    (now + zoneOffset) / MsPerSecond * MsPerSecond
  }

  /** `nextRefresh - pst`: today's H:M:00.000, or tomorrow's once that is reached. */
  function DailyDelay(wall: int, hour: int, minute: int): (d: int)
    ensures var slot := hour * MsPerHour + minute * MsPerMinute;
      0 <= slot < MsPerDay ==> 0 < d <= MsPerDay && (wall + d) % MsPerDay == slot
  {
    var target := wall / MsPerDay * MsPerDay + hour * MsPerHour + minute * MsPerMinute;
    if wall >= target then target + MsPerDay - wall else target - wall
  }

  /** At exactly the slot the refresh is a full day away; a millisecond before it, one millisecond. */
  lemma DailyDelayAtSlot(day: int)
    ensures DailyDelay(day * MsPerDay + 4 * MsPerHour + 30 * MsPerMinute, 4, 30) == MsPerDay
    ensures DailyDelay(day * MsPerDay + 4 * MsPerHour + 30 * MsPerMinute - 1, 4, 30) == 1
  {
    var w := day * MsPerDay + 4 * MsPerHour + 30 * MsPerMinute;
    assert w / MsPerDay == day;
    assert (w - 1) / MsPerDay == day;
  }

  // ---------------------------------------------------------------- deployment detection

  /** What `fetch('/api/version')` gave; a falsy `version` is "". */
  datatype VersionReply = VersionThrew | VersionAnswered(ok: bool, version: string)

  /** The value `fetchCurrentVersion` returns: null ("") on a throw or a non-ok response. */
  function VersionOf(reply: VersionReply): (v: string)
    ensures reply.VersionThrew? || !reply.ok ==> v == ""
  {
    if reply.VersionAnswered? && reply.ok then reply.version else ""
  }

  /** `currentVersion` after `fetchCurrentVersion`: replaced only by an ok response. */
  function NextVersion(current: string, reply: VersionReply): (v: string)
    ensures v == current || v == VersionOf(reply)
    ensures reply.VersionThrew? || !reply.ok ==> v == current
  {
    if reply.VersionAnswered? && reply.ok then reply.version else current
  }

  /** The check as written: the comparison runs after `fetchCurrentVersion`
      has already stored the new version. */
  predicate DeploymentFiresAsWritten(current: string, reply: VersionReply) {
    var newVersion := VersionOf(reply);
    var stored := NextVersion(current, reply);
    newVersion != "" && stored != "" && newVersion != stored
  }

  /** As written, no reply ever makes the check fire, whatever version was stored. */
  lemma DeploymentCheckNeverFires(current: string, reply: VersionReply)
    ensures !DeploymentFiresAsWritten(current, reply)
  {
  }

  /** A deployment from "v1" to "v2" goes unnoticed as written and is caught as intended. */
  lemma DeploymentMissed()
    ensures !DeploymentFiresAsWritten("v1", VersionAnswered(true, "v2"))
    ensures DeploymentFires("v1", VersionAnswered(true, "v2"))
  {
  }

  /** The check as intended: the new version against the one stored before the fetch. */
  predicate DeploymentFires(current: string, reply: VersionReply) {
    var newVersion := VersionOf(reply);
    newVersion != "" && current != "" && newVersion != current
  }

  /** The intended check fires iff an ok reply names a version other than a
      known earlier one; the first version seen never fires. */
  lemma DeploymentFiresOnNewVersion(current: string, reply: VersionReply)
    ensures DeploymentFires(current, reply) <==>
      reply.VersionAnswered? && reply.ok && reply.version != "" && current != "" && reply.version != current
    ensures current == "" ==> !DeploymentFires(current, reply)
  {
  }

  /** The refresh after a detected deployment waits ten seconds. */
  const DeploymentSettle: int := 10000

  // ---------------------------------------------------------------- the error counter

  /** What the wrapped `fetch` saw: a throw or a response. */
  datatype FetchResult = FetchThrew | FetchResponded(ok: bool)

  predicate IsApi(url: string) {
    Contains(url, "/api/")
  }

  /** A counted error: any throw, or a non-ok `/api/` response. */
  predicate Counted(url: string, r: FetchResult) {
    r.FetchThrew? || (!r.ok && IsApi(url))
  }

  /** `consecutiveErrors` after one fetch. */
  function ErrorsAfter(count: nat, url: string, r: FetchResult): (n: nat)
    ensures n == count + 1 <==> Counted(url, r)
    ensures n == 0 <==> (r.FetchResponded? && IsApi(url) && r.ok) || (count == 0 && !Counted(url, r))
    ensures !IsApi(url) && r.FetchResponded? ==> n == count
  {
    if r.FetchThrew? then count + 1
    else if IsApi(url) then (if r.ok then 0 else count + 1)
    else count
  }

  /** A fetch asks for a hard refresh when it is a counted error that leaves
      the counter at or above the threshold. */
  predicate WantsRefresh(count: nat, url: string, r: FetchResult, threshold: int) {
    Counted(url, r) && ErrorsAfter(count, url, r) >= threshold
  }

  /** For each fetch of a run, whether it asks for a hard refresh. */
  function RefreshRequests(count: nat, fetches: seq<(string, FetchResult)>, threshold: int): (r: seq<bool>)
    ensures |r| == |fetches|
    decreases |fetches|
  {
    if fetches == [] then []
    else
      var (url, res) := fetches[0];
      [WantsRefresh(count, url, res, threshold)] +
      RefreshRequests(ErrorsAfter(count, url, res), fetches[1..], threshold)
  }

  /** In a run of counted errors starting from `count`, the fetch numbered k
      asks for a refresh iff `count + k + 1` reaches the threshold: once it
      does, every later error in the run asks again. */
  lemma {:induction false} ErrorRunRequests(count: nat, fetches: seq<(string, FetchResult)>, threshold: int)
    requires forall k :: 0 <= k < |fetches| ==> Counted(fetches[k].0, fetches[k].1)
    ensures forall k :: 0 <= k < |fetches| ==>
      (RefreshRequests(count, fetches, threshold)[k] <==> count + k + 1 >= threshold)
    decreases |fetches|
  {
    if fetches != [] {
      var (url, res) := fetches[0];
      ErrorRunRequests(count + 1, fetches[1..], threshold);
      var r := RefreshRequests(count, fetches, threshold);
      assert r == [WantsRefresh(count, url, res, threshold)] + RefreshRequests(count + 1, fetches[1..], threshold);
      forall k | 0 <= k < |fetches| ensures r[k] <==> count + k + 1 >= threshold {
        if k > 0 {
          assert fetches[1..][k - 1] == fetches[k];
        }
      }
    }
  }

  // ---------------------------------------------------------------- the rate limit

  const MinRefreshGap: int := 60000

  predicate RefreshAllowed(lastRefreshTime: int, now: int) {
    now - lastRefreshTime >= MinRefreshGap
  }

  /** The instants at which a series of `hardRefresh` calls reloads the page. */
  function ReloadTimes(lastRefreshTime: int, calls: seq<int>): (r: seq<int>)
    ensures |r| <= |calls|
    decreases |calls|
  {
    if calls == [] then []
    else if RefreshAllowed(lastRefreshTime, calls[0]) then [calls[0]] + ReloadTimes(calls[0], calls[1..])
    else ReloadTimes(lastRefreshTime, calls[1..])
  }

  /** Reloads are at least a minute after the last one and after each other,
      and each is one of the calls. */
  lemma {:induction false} ReloadsSpaced(lastRefreshTime: int, calls: seq<int>)
    ensures var r := ReloadTimes(lastRefreshTime, calls);
      (r != [] ==> r[0] >= lastRefreshTime + MinRefreshGap) &&
      (forall k :: 0 < k < |r| ==> r[k] >= r[k - 1] + MinRefreshGap) &&
      (forall k :: 0 <= k < |r| ==> r[k] in calls)
    decreases |calls|
  {
    if calls != [] {
      var r := ReloadTimes(lastRefreshTime, calls);
      if RefreshAllowed(lastRefreshTime, calls[0]) {
        ReloadsSpaced(calls[0], calls[1..]);
        var rest := ReloadTimes(calls[0], calls[1..]);
        assert r == [calls[0]] + rest;
        forall k | 0 < k < |r| ensures r[k] >= r[k - 1] + MinRefreshGap {
          assert r[k] == rest[k - 1];
        }
        forall k | 0 <= k < |r| ensures r[k] in calls {
          if k > 0 {
            assert r[k] == rest[k - 1];
            assert rest[k - 1] in calls[1..];
          }
        }
      } else {
        ReloadsSpaced(lastRefreshTime, calls[1..]);
        forall k | 0 <= k < |r| ensures r[k] in calls {
          assert r[k] in calls[1..];
        }
      }
    }
  }

  // ---------------------------------------------------------------- the manager

  class RefreshManager {
    var options: Options
    var consecutiveErrors: nat
    /** The stored version, "" while unknown (`null`). */
    var currentVersion: string
    var lastRefreshTime: int
    /** The instant the daily refresh timer fires at, if scheduled. */
    var dailyRefreshAt: Option<int>

    /** A page load at `now`: no reload can happen in its first minute. */
    constructor(raw: RawOptions, now: int)
      ensures options == OptionsOf(raw)
      ensures consecutiveErrors == 0 && currentVersion == "" && lastRefreshTime == now && dailyRefreshAt.None?
    {
      options := OptionsOf(raw);
      consecutiveErrors := 0;
      currentVersion := "";
      lastRefreshTime := now;
      dailyRefreshAt := None;
    }

    method FetchCurrentVersion(reply: VersionReply) returns (v: string)
      modifies this
      ensures v == VersionOf(reply) && currentVersion == NextVersion(old(currentVersion), reply)
      ensures options == old(options) && consecutiveErrors == old(consecutiveErrors)
      ensures lastRefreshTime == old(lastRefreshTime) && dailyRefreshAt == old(dailyRefreshAt)
    {
      if reply.VersionThrew? || !reply.ok {
        return "";
      }
      currentVersion := reply.version;
      return currentVersion;
    }

    /** `checkAndSchedule`: the timer is replaced by one at the next daily slot. */
    method ScheduleDailyRefresh(now: int, zoneOffset: int)
      modifies this
      ensures dailyRefreshAt == Some(now + DailyDelay(WallClock(now, zoneOffset), options.dailyRefreshHour, options.dailyRefreshMinute))
      ensures options == old(options) && consecutiveErrors == old(consecutiveErrors)
      ensures currentVersion == old(currentVersion) && lastRefreshTime == old(lastRefreshTime)
    {
      var pst := WallClock(now, zoneOffset);
      var msUntilRefresh := DailyDelay(pst, options.dailyRefreshHour, options.dailyRefreshMinute);
      dailyRefreshAt := Some(now + msUntilRefresh);
    }

    /** One tick of the deployment check as written; it never schedules a refresh. */
    method CheckDeploymentAsWritten(reply: VersionReply, now: int) returns (refreshAt: Option<int>)
      modifies this
      ensures refreshAt.None?
      ensures currentVersion == NextVersion(old(currentVersion), reply)
      ensures options == old(options) && consecutiveErrors == old(consecutiveErrors)
      ensures lastRefreshTime == old(lastRefreshTime) && dailyRefreshAt == old(dailyRefreshAt)
    {
      var newVersion := FetchCurrentVersion(reply);
      if newVersion != "" && currentVersion != "" && newVersion != currentVersion {
        return Some(now + DeploymentSettle);
      }
      return None;
    }

    /** One tick of the deployment check, comparing against the version held
      before the fetch: a new deployment schedules a refresh ten seconds on. */
    method CheckDeployment(reply: VersionReply, now: int) returns (refreshAt: Option<int>)
      modifies this
      ensures refreshAt == if DeploymentFires(old(currentVersion), reply) then Some(now + DeploymentSettle) else None
      ensures currentVersion == NextVersion(old(currentVersion), reply)
      ensures options == old(options) && consecutiveErrors == old(consecutiveErrors)
      ensures lastRefreshTime == old(lastRefreshTime) && dailyRefreshAt == old(dailyRefreshAt)
    {
      var previous := currentVersion;
      var newVersion := FetchCurrentVersion(reply);
      if newVersion != "" && previous != "" && newVersion != previous {
        return Some(now + DeploymentSettle);
      }
      return None;
    }

    /** `hardRefresh(reason)` at `now`: nothing within a minute of the last
      refresh; otherwise the time is recorded and the page reloads. */
    method HardRefresh(now: int) returns (reloaded: bool)
      modifies this
      ensures reloaded <==> RefreshAllowed(old(lastRefreshTime), now)
      ensures lastRefreshTime == if reloaded then now else old(lastRefreshTime)
      ensures options == old(options) && consecutiveErrors == old(consecutiveErrors)
      ensures currentVersion == old(currentVersion) && dailyRefreshAt == old(dailyRefreshAt)
    {
      if now - lastRefreshTime < MinRefreshGap {
        return false;
      }
      lastRefreshTime := now;
      return true;
    }

    /** One call through the wrapped `window.fetch`. */
    method OnFetch(url: string, r: FetchResult, now: int) returns (reloaded: bool)
      modifies this
      ensures consecutiveErrors == ErrorsAfter(old(consecutiveErrors), url, r)
      ensures reloaded <==>
        WantsRefresh(old(consecutiveErrors), url, r, options.consecutiveErrorThreshold) && RefreshAllowed(old(lastRefreshTime), now)
      ensures lastRefreshTime == if reloaded then now else old(lastRefreshTime)
      ensures options == old(options) && currentVersion == old(currentVersion) && dailyRefreshAt == old(dailyRefreshAt)
    {
      reloaded := false;
      if r.FetchThrew? {
        consecutiveErrors := consecutiveErrors + 1;
        if consecutiveErrors >= options.consecutiveErrorThreshold {
          reloaded := HardRefresh(now);
        }
        return;
      }
      if r.ok && IsApi(url) {
        consecutiveErrors := 0;
      }
      if !r.ok && IsApi(url) {
        consecutiveErrors := consecutiveErrors + 1;
        if consecutiveErrors >= options.consecutiveErrorThreshold {
          reloaded := HardRefresh(now);
        }
      }
    }
  }
}
