/** The idle detection of the dashboard screensaver
    (src/components/screensaver/screensaver-controller.js): user activity
    stamps the time, a periodic tick starts the screensaver once the page has
    been idle for longer than the threshold, and the end of a run, normal or
    failed, clears the active flag and restarts the idle period. The clock is
    the parameter `now` of each call; the animation itself is not part of this
    model, only the moment its run ends. */
module Screensaver {
  import opened Common
  import opened CivilTime

  /** `options.idleThreshold || 3 * 60 * 60 * 1000`, with None for a missing option. */
  function IdleThresholdOf(option: Option<int>): (r: int)
    ensures r == 3 * MsPerHour <==> option.None? || option.value == 0 || option.value == 3 * MsPerHour
    ensures option.Some? && option.value != 0 ==> r == option.value
  {
    if option.Some? && option.value != 0 then option.value else 3 * MsPerHour
  }

  /** The fields the idle logic reads and writes. */
  datatype IdleState = IdleState(lastActivityTime: int, active: bool)

  /** What happens to the controller: activity, a minute tick, or the end of a run. */
  datatype Event = Activity(at: int) | Tick(at: int) | RunEnded(at: int)

  /** A tick starts the screensaver iff the idle time strictly exceeds the
      threshold and no run is active. */
  predicate Fires(s: IdleState, e: Event, threshold: int) {
    e.Tick? && e.at - s.lastActivityTime > threshold && !s.active
  }

  /** The state after one event. */
  function Step(s: IdleState, e: Event, threshold: int): (t: IdleState)
    ensures Fires(s, e, threshold) ==> t == IdleState(s.lastActivityTime, true)
    ensures e.Tick? && !Fires(s, e, threshold) ==> t == s
    ensures e.Activity? ==> t == IdleState(e.at, s.active)
    ensures e.RunEnded? ==> t == IdleState(e.at, false)
  {
    match e
    case Activity(at) => IdleState(at, s.active)
    case Tick(at) => if at - s.lastActivityTime > threshold && !s.active then IdleState(s.lastActivityTime, true) else s
    case RunEnded(at) => IdleState(at, false)
  }

  /** For each event of a trace, whether it started the screensaver. */
  function Fired(s: IdleState, events: seq<Event>, threshold: int): (r: seq<bool>)
    ensures |r| == |events|
    decreases |events|
  {
    if events == [] then []
    else [Fires(s, events[0], threshold)] + Fired(Step(s, events[0], threshold), events[1..], threshold)
  }

  /** The idle comparison is strict: exactly the threshold is not enough. */
  lemma TickIsStrict(t: int, threshold: int)
    ensures !Fires(IdleState(t, false), Tick(t + threshold), threshold)
    ensures Fires(IdleState(t, false), Tick(t + threshold + 1), threshold)
  {
  }

  /** While a run is active and has not ended, no tick starts another one. */
  lemma {:induction false} ActiveBlocksTicks(s: IdleState, events: seq<Event>, threshold: int, n: nat)
    requires s.active
    requires forall k :: 0 <= k < n && k < |events| ==> !events[k].RunEnded?
    ensures forall k :: 0 <= k <= n && k < |events| ==> !Fired(s, events, threshold)[k]
    decreases |events|
  {
    if events != [] {
      var f := Fired(s, events, threshold);
      var next := Step(s, events[0], threshold);
      assert f == [Fires(s, events[0], threshold)] + Fired(next, events[1..], threshold);
      if n > 0 {
        assert next.active;
        ActiveBlocksTicks(next, events[1..], threshold, n - 1);
        forall k | 0 < k <= n && k < |events| ensures !f[k] {
          assert f[k] == Fired(next, events[1..], threshold)[k - 1];
        }
      }
    }
  }

  /** Between two starts of the screensaver the first run has ended. */
  lemma {:induction false} RunEndsBetweenTriggers(s: IdleState, events: seq<Event>, threshold: int, i: nat, j: nat)
    requires i < j < |events|
    requires Fired(s, events, threshold)[i] && Fired(s, events, threshold)[j]
    ensures exists k :: i < k < j && events[k].RunEnded?
    decreases i
  {
    var f := Fired(s, events, threshold);
    var next := Step(s, events[0], threshold);
    var rest := Fired(next, events[1..], threshold);
    assert f == [Fires(s, events[0], threshold)] + rest;
    assert f[j] == rest[j - 1];
    if i > 0 {
      assert f[i] == rest[i - 1];
      RunEndsBetweenTriggers(next, events[1..], threshold, i - 1, j - 1);
      var k :| i - 1 < k < j - 1 && events[1..][k].RunEnded?;
      assert events[k + 1] == events[1..][k];
    } else if forall m :: 0 < m < j ==> !events[m].RunEnded? {
      assert next.active;
      forall k | 0 <= k < j - 1 && k < |events[1..]| ensures !events[1..][k].RunEnded? {
        assert events[1..][k] == events[k + 1];
      }
      ActiveBlocksTicks(next, events[1..], threshold, j - 1);
    }
  }

  /** Activity during a run restarts the idle period without ending the run. */
  lemma ActivityKeepsRun(s: IdleState, t: int, threshold: int)
    ensures Step(s, Activity(t), threshold).active == s.active
    ensures Step(s, Activity(t), threshold).lastActivityTime == t
    ensures !Fires(s, Activity(t), threshold)
  {
  }

  class DashboardScreensaver {
    var idleThreshold: int
    var lastActivityTime: int
    var isScreensaverActive: bool

    function State(): IdleState
      reads this
    {
      IdleState(lastActivityTime, isScreensaverActive)
    }

    /** Construction at `now`: inactive, with the idle period starting now. */
    constructor(idleOption: Option<int>, now: int)
      ensures idleThreshold == IdleThresholdOf(idleOption)
      ensures State() == IdleState(now, false)
    {
      idleThreshold := IdleThresholdOf(idleOption);
      lastActivityTime := now;
      isScreensaverActive := false;
    }

    /** `resetIdleCheck()`. */
    method ResetIdleCheck(now: int)
      modifies this
      ensures lastActivityTime == now
      ensures isScreensaverActive == old(isScreensaverActive) && idleThreshold == old(idleThreshold)
    {
      lastActivityTime := now;
    }

    /** `recordActivity()`: a mouse, key or touch event. */
    method RecordActivity(now: int)
      modifies this
      ensures State() == Step(old(State()), Activity(now), idleThreshold)
      ensures idleThreshold == old(idleThreshold)
    {
      lastActivityTime := now;
      if isScreensaverActive {
        ResetIdleCheck(now);
      }
    }

    /** The start of `triggerScreensaver()`: the flag is set before the run is awaited. */
    method TriggerScreensaver()
      modifies this
      ensures isScreensaverActive
      ensures lastActivityTime == old(lastActivityTime) && idleThreshold == old(idleThreshold)
    {
      isScreensaverActive := true;
    }

    /** The `finally` of `triggerScreensaver()`, whether the run ended normally or threw. */
    method EndRun(now: int)
      modifies this
      ensures State() == Step(old(State()), RunEnded(now), idleThreshold)
      ensures idleThreshold == old(idleThreshold)
    {
      isScreensaverActive := false;
      lastActivityTime := now;
    }

    /** One tick of the idle check. */
    method IdleTick(now: int) returns (triggered: bool)
      modifies this
      ensures triggered == Fires(old(State()), Tick(now), idleThreshold)
      ensures State() == Step(old(State()), Tick(now), idleThreshold)
      ensures idleThreshold == old(idleThreshold)
    {
      var timeSinceActivity := now - lastActivityTime;
      triggered := timeSinceActivity > idleThreshold && !isScreensaverActive;
      if triggered {
        TriggerScreensaver();
      }
    }
  }
}
