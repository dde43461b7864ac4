/** The decisions the session takes on the command results: its settings,
    the two-strategy choice for the foreground application, the playback
    debounce and the power-cycle retry loop. */
module Policy {
  import opened Wrappers
  import opened DeviceOutput
  import opened Commands

  // ---------------------------------------------------------------------------
  // Settings

  /** The floor of the poll interval and of the command timeout, in ms. */
  const MinimumPeriod := 1000
  /** The power-cycle retry count when none (or zero) is configured. */
  const DefaultRetries := 10
  /** How long "not playing" must persist after the last playing sample. */
  const PlaybackDelayOff := 10000

  /** `config.x || 1000`, raised to 1000 when lower. */
  function PeriodSetting(option: Option<int>): (ms: int)
    ensures ms >= MinimumPeriod
    ensures option.Some? && option.value >= MinimumPeriod ==> ms == option.value
    ensures option.None? || option.value < MinimumPeriod ==> ms == MinimumPeriod
  {
    var v := if option.None? || option.value == 0 then MinimumPeriod else option.value;
    if v < MinimumPeriod then MinimumPeriod else v
  }

  /** `config.retryPowerOn || 10`: a missing or zero count gives ten, any
      other count, negative ones included, is kept. */
  function RetrySetting(option: Option<int>): (n: int)
    ensures n != 0
    ensures option.None? || option.value == 0 ==> n == DefaultRetries
    ensures option.Some? && option.value != 0 ==> n == option.value
  {
    if option.None? || option.value == 0 then DefaultRetries else option.value
  }

  // ---------------------------------------------------------------------------
  // Foreground application: window focus first, resumed activity second

  /** The flags `inputUseWindows`, `inputUseActivities` and `inputError`. */
  datatype Strategy = Strategy(useWindows: bool, useActivities: bool, error: bool)

  const InitialStrategy := Strategy(true, true, false)

  /** The flag combinations the session can reach: at least one strategy
      stays in use, and the error flag is only ever set with both. */
  predicate StrategyValid(s: Strategy) {
    (s.useWindows || s.useActivities) && (s.error ==> s.useWindows && s.useActivities)
  }

  /** The outcome of one application probe: the new flags, whether the last
      query run succeeded, the resolved id, and the queries issued. */
  datatype AppProbe = AppProbe(strategy: Strategy, result: bool, message: string, queries: seq<Command>)

  /** One run of the application probe on the two possible query results. */
  function ProbeApp(s: Strategy, windows: Reply, activities: Reply): AppProbe {
    var runWindows := s.useWindows && !s.error;
    var s1 := if runWindows && windows.ok then s.(useActivities := false, error := false) else s;
    var result1 := if runWindows then windows.ok else false;
    var message1 := if runWindows then windows.message else "";
    var runActivities := s1.useActivities && !s1.error;
    var s2 := if runActivities && activities.ok then s1.(useWindows := false, error := false) else s1;
    var result2 := if runActivities then activities.ok else result1;
    var message2 := if runActivities then activities.message else message1;
    var queries := (if runWindows then [AdbQuery(FocusedWindow)] else [])
                   + (if runActivities then [AdbQuery(ResumedActivity)] else []);
    if s2.useWindows && s2.useActivities then AppProbe(s2.(error := true), result2, message2, queries)
    else AppProbe(s2, result2, NormalizeAppId(message2), queries)
  }

  /** The probe keeps the flags among the reachable combinations, never turns
      a strategy back on, and sets the error flag exactly when both are on. */
  lemma ProbeKeepsStrategyValid(s: Strategy, windows: Reply, activities: Reply)
    requires StrategyValid(s)
    ensures var r := ProbeApp(s, windows, activities);
            StrategyValid(r.strategy)
            && (r.strategy.useWindows ==> s.useWindows)
            && (r.strategy.useActivities ==> s.useActivities)
            && (r.strategy.error <==> r.strategy.useWindows && r.strategy.useActivities)
  {
  }

  /** Once set, the error flag stays set and no query runs again. */
  lemma ProbeErrorLatches(s: Strategy, windows: Reply, activities: Reply)
    requires StrategyValid(s) && s.error
    ensures var r := ProbeApp(s, windows, activities);
            r.strategy == s && r.queries == [] && !r.result && r.message == ""
  {
  }

  /** A disabled strategy issues no query. */
  lemma ProbeSkipsDisabled(s: Strategy, windows: Reply, activities: Reply)
    ensures var r := ProbeApp(s, windows, activities);
            (!s.useWindows ==> AdbQuery(FocusedWindow) !in r.queries)
            && (!s.useActivities ==> AdbQuery(ResumedActivity) !in r.queries)
  {
    assert AdbQuery(FocusedWindow) != AdbQuery(ResumedActivity);
  }

  /** A successful window-focus query settles on windows for good, and its
      line gives the id. */
  lemma ProbeWindowsSucceeds(s: Strategy, windows: Reply, activities: Reply)
    requires s.useWindows && !s.error && windows.ok
    ensures var r := ProbeApp(s, windows, activities);
            r.strategy == Strategy(true, false, false) && r.result
            && r.queries == [AdbQuery(FocusedWindow)]
            && r.message == NormalizeAppId(windows.message)
  {
  }

  /** From the start, a failing window query and a working activity query
      leave only the activity strategy, and later probes use only it. */
  lemma ProbeFallsBackToActivities(windows: Reply, activities: Reply, w2: Reply, a2: Reply)
    requires !windows.ok && activities.ok
    ensures var r := ProbeApp(InitialStrategy, windows, activities);
            r.strategy == Strategy(false, true, false) && r.result
            && r.queries == [AdbQuery(FocusedWindow), AdbQuery(ResumedActivity)]
            && r.message == NormalizeAppId(activities.message)
            && ProbeApp(r.strategy, w2, a2).queries == [AdbQuery(ResumedActivity)]
  {
  }

  /** When both queries fail from the start, the error flag is set and the
      raw failure text is kept as the message. */
  lemma ProbeBothFail(windows: Reply, activities: Reply)
    requires !windows.ok && !activities.ok
    ensures var r := ProbeApp(InitialStrategy, windows, activities);
            r.strategy == Strategy(true, true, true) && !r.result
            && r.message == activities.message
  {
  }

  // ---------------------------------------------------------------------------
  // Playback debounce

  /** `isPlayback` and `playbackTimestamp`. */
  datatype Playback = Playback(playing: bool, stamp: int)

  datatype DebounceStep = DebounceStep(state: Playback, emitted: bool)

  /** One playback sample taken at time `now` against the debounce window. */
  function Debounce(p: Playback, initialized: bool, sample: bool, now: int): (r: DebounceStep)
    ensures sample ==> r.state.stamp == now
    ensures r.emitted ==> r.state == Playback(sample, now)
    ensures !r.emitted ==> r.state.playing == p.playing
    ensures sample && !p.playing ==> r.emitted
    ensures !initialized && !p.playing ==> r.emitted
    ensures p.playing && !sample ==> (r.emitted <==> now - p.stamp >= PlaybackDelayOff)
    ensures p.playing && sample ==> !r.emitted
    ensures initialized && p.playing == sample ==> !r.emitted
    ensures !sample && !r.emitted ==> r.state.stamp == p.stamp
  {
    var stamp := if sample then now else p.stamp;
    if p.playing != sample || !initialized then
      if now - stamp >= PlaybackDelayOff || !p.playing then DebounceStep(Playback(sample, now), true)
      else DebounceStep(Playback(p.playing, stamp), false)
    else DebounceStep(Playback(p.playing, stamp), false)
  }

  /** Playing at `t0`, silent at `t0`, `t0 + 5000` and `t0 + 10001`: only the
      last sample turns playback off, with one emission. */
  lemma DebounceHoldsOff(t0: int)
    ensures var s1 := Debounce(Playback(true, t0), true, false, t0);
            var s2 := Debounce(s1.state, true, false, t0 + 5000);
            var s3 := Debounce(s2.state, true, false, t0 + 10001);
            !s1.emitted && !s2.emitted && s3.emitted && !s3.state.playing
  {
  }

  // ---------------------------------------------------------------------------
  // Power cycle

  /** The awake value `state()` leaves behind: no query and asleep when the
      session is disconnected (any other code counts as connected). */
  function AwakeSample(connected: Connection, reply: Reply): bool {
    if Code(connected) == 0 then false else ParseAwake(reply)
  }

  /** The end of the power loop: key codes sent and the retry count left. */
  datatype PowerRun = PowerRun(keycodes: nat, retry: int)

  /** The do-while loop of `power` from iteration `i` with `retry` retries
      left: send a key code, resample, stop on the target or when the
      count reaches zero. */
  function PowerLoop(connected: Connection, replies: nat -> Reply, on: bool, retry: int, i: nat): (r: PowerRun)
    ensures r.keycodes > i
    decreases if retry > 0 then retry else 0
  {
    if AwakeSample(connected, replies(i)) == on then PowerRun(i + 1, retry)
    else if retry - 1 > 0 then PowerLoop(connected, replies, on, retry - 1, i + 1)
    else PowerRun(i + 1, retry - 1)
  }

  /** The loop stops at the first sample in the target state, sends at most
      `retry` key codes, and ends with retries left exactly when it reached
      the target; when none are left, all `retry` key codes were sent. */
  lemma {:induction false} PowerLoopFacts(connected: Connection, replies: nat -> Reply, on: bool, retry: int, i: nat)
    ensures var r := PowerLoop(connected, replies, on, retry, i);
            (forall j :: i <= j < r.keycodes - 1 ==> AwakeSample(connected, replies(j)) != on)
            && (retry >= 1 ==> r.keycodes <= i + retry)
            && (retry < 1 ==> r.keycodes == i + 1 && r.retry < 1)
            && (retry >= 1 ==> (r.retry > 0 <==> AwakeSample(connected, replies(r.keycodes - 1)) == on))
            && (retry >= 1 && r.retry <= 0 ==> r.keycodes == i + retry && r.retry == 0)
    decreases if retry > 0 then retry else 0
  {
    if AwakeSample(connected, replies(i)) != on && retry - 1 > 0 {
      PowerLoopFacts(connected, replies, on, retry - 1, i + 1);
    }
  }

  /** With every sample off target, the loop sends exactly `retry` key codes
      and ends with none left. */
  lemma {:induction false} PowerLoopExhausts(connected: Connection, replies: nat -> Reply, on: bool, retry: int, i: nat)
    requires retry >= 1
    requires forall j :: j >= i ==> AwakeSample(connected, replies(j)) != on
    ensures PowerLoop(connected, replies, on, retry, i) == PowerRun(i + retry, 0)
    decreases retry
  {
    if retry > 1 {
      PowerLoopExhausts(connected, replies, on, retry - 1, i + 1);
    }
  }

  /** What a call of `power` does: key codes sent and whether it failed. */
  datatype PowerOutcome = PowerOutcome(keycodes: nat, failed: bool)

  /** `power(keycode, on)` from awake state `awake`: nothing to do when the
      device is already there, otherwise the retry loop; it reports failure
      when the retry count was used up. */
  function PowerCycle(awake: bool, on: bool, retries: int, connected: Connection,
                      replies: nat -> Reply): PowerOutcome
  {
    if awake != on then
      var run := PowerLoop(connected, replies, on, retries, 0);
      PowerOutcome(run.keycodes, !(run.retry > 0))
    else PowerOutcome(0, false)
  }

  /** No key code and success when already in the target state; otherwise,
      with one retry or more, between 1 and `retries` key codes, stopping at
      the first sample in the target state, failing exactly when the last
      sample missed it, and then only after all `retries` key codes; with a
      negative count, one key code and failure. */
  lemma PowerCycleFacts(awake: bool, on: bool, retries: int, connected: Connection, replies: nat -> Reply)
    ensures var r := PowerCycle(awake, on, retries, connected, replies);
            (awake == on ==> r == PowerOutcome(0, false))
            && (awake != on && retries >= 1 ==>
                  1 <= r.keycodes <= retries
                  && (forall j :: 0 <= j < r.keycodes - 1 ==> AwakeSample(connected, replies(j)) != on)
                  && (r.failed <==> AwakeSample(connected, replies(r.keycodes - 1)) != on)
                  && (r.failed ==> r.keycodes == retries))
            && (awake != on && retries < 1 ==> r == PowerOutcome(1, true))
  {
    PowerLoopFacts(connected, replies, on, retries, 0);
  }

  /** With every sample off target, `retries` key codes are sent and the call
      fails. */
  lemma PowerCycleExhausts(awake: bool, on: bool, retries: int, connected: Connection, replies: nat -> Reply)
    requires awake != on && retries >= 1
    requires forall j :: j >= 0 ==> AwakeSample(connected, replies(j)) != on
    ensures PowerCycle(awake, on, retries, connected, replies) == PowerOutcome(retries, true)
  {
    PowerLoopExhausts(connected, replies, on, retries, 0);
  }
}
