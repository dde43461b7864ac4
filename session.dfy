/** The `adb` session object: the device state it keeps, the commands it
    issues and the events it emits. Command results are parameters; the
    commands issued and the events emitted are logged in order. */
module AdbSession {
  import opened Wrappers
  import opened Text
  import opened DeviceOutput
  import opened Commands
  import opened Policy

  /** The events the session emits. */
  datatype Event =
    | ConnectedEvent | DisconnectedEvent
    | AwakeEvent | SleepEvent
    | AppChangeEvent
    | PlaybackEvent
    | PowerEvent(on: bool)                   // `powerOn` / `powerOff`
    | PowerDoneEvent(on: bool, failed: bool) // `powerOnSuccess` ... `powerOffFailed`

  function ConnectionEvent(c: Connection): Event {
    if c == Connected then ConnectedEvent else DisconnectedEvent
  }

  function AwakeChange(awake: bool): Event {
    if awake then AwakeEvent else SleepEvent
  }

  /** `connect` emits when the value changed or on the first pass. */
  function ConnectEvents(before: Connection, after: Connection, initialized: bool): seq<Event> {
    if before != after || !initialized then [ConnectionEvent(after)] else []
  }

  /** What `state` emits for one power reply. */
  function StateEvents(connected: Connection, initialized: bool, before: bool, reply: Reply): seq<Event> {
    if connected == Disconnected then []
    else if ParseAwake(reply) != before || !initialized then [AwakeChange(ParseAwake(reply))]
    else []
  }

  /** What `state` issues: the power query, unless disconnected. */
  function StateQueries(connected: Connection): seq<Command> {
    if Code(connected) == 0 then [] else [AdbQuery(PowerState)]
  }

  /** `currentAppID != message` with JavaScript's loose comparison: a missing
      id is `false`, which equals a string whose trimmed text is empty or
      only zeros. */
  predicate AppIdDiffers(current: Option<string>, message: string) {
    match current
    case None => !AllZeros(Trim(message))
    case Some(id) => id != message
  }

  /** Whether an application probe changes the stored id. */
  predicate AppChanges(result: bool, message: string, current: Option<string>, initialized: bool) {
    (result || !initialized) && AppIdDiffers(current, message)
  }

  /** Before any id is stored, the stored `false` equals every trimmed id
      made of zeros only (the empty one included), so such an id is not
      taken, and any other trimmed id (such as `home`) is. */
  lemma FirstIdComparedWithFalse(m: string)
    requires m == [] || (!IsSpace(m[0]) && !IsSpace(m[|m| - 1]))
    ensures AppIdDiffers(None, m) <==> !AllZeros(m)
    ensures m == [] ==> !AppIdDiffers(None, m)
    ensures m != [] && m[0] != '0' ==> AppIdDiffers(None, m)
  {
    TrimmedAllZeros(m);
  }

  /** Every code but the disconnected one counts as connected for `state`:
      an authorizing or refused device is still queried. */
  lemma AnyOtherCodeIsQueried(c: Connection, reply: Reply)
    requires c != Disconnected
    ensures StateQueries(c) == [AdbQuery(PowerState)]
    ensures AwakeSample(c, reply) == ParseAwake(reply)
  {
  }

  /** The queries of one playback sample. */
  function PlaybackQueries(current: Option<string>, buttons: Reply, resultState: Reply): seq<Command> {
    [AdbQuery(ButtonSession)]
    + if UsesMediaSession(current, buttons.message) then
        [AdbQuery(ResultState)]
        + (if resultState.message == "" then [AdbQuery(PlaybackState)] else [])
      else [AdbQuery(AudioPlayers)]
  }

  /** The awake value before power-loop iteration `i`. */
  function AwakeBefore(connected: Connection, samples: nat -> Reply, start: bool, i: nat): bool {
    if i == 0 then start else AwakeSample(connected, samples(i - 1))
  }

  /** Concatenation regrouped. */
  lemma AppendAssociates<T>(a: seq<T>, b: seq<T>, c: seq<T>)
    ensures a + b + c == a + (b + c)
  {
  }

  /** The events of the first `n` iterations of the power loop. */
  function PowerTrail(connected: Connection, samples: nat -> Reply, initialized: bool,
                      start: bool, n: nat): seq<Event>
  {
    if n == 0 then []
    else PowerTrail(connected, samples, initialized, start, n - 1)
         + StateEvents(connected, initialized, AwakeBefore(connected, samples, start, n - 1), samples(n - 1))
  }

  /** The commands of the first `n` iterations of the power loop. */
  function PowerCommands(key: Command, connected: Connection, n: nat): seq<Command> {
    if n == 0 then []
    else PowerCommands(key, connected, n - 1) + [key] + StateQueries(connected)
  }

  /** Between its start and end events, a power cycle emits only awake and sleep. */
  lemma {:induction false} PowerTrailIsAwakeOrSleep(connected: Connection, samples: nat -> Reply,
                                                    initialized: bool, start: bool, n: nat)
    ensures var t := PowerTrail(connected, samples, initialized, start, n);
            |t| <= n && forall k :: 0 <= k < |t| ==> t[k] == AwakeEvent || t[k] == SleepEvent
  {
    if n > 0 {
      PowerTrailIsAwakeOrSleep(connected, samples, initialized, start, n - 1);
    }
  }

  /** Every power-loop iteration sends the key code and, when connected,
      queries the power state; nothing else is issued. */
  lemma {:induction false} PowerCommandsCount(key: Command, connected: Connection, n: nat)
    ensures var cs := PowerCommands(key, connected, n);
            |cs| == (if connected == Disconnected then n else n + n)
            && forall c :: c in cs ==> c == key || c == AdbQuery(PowerState)
  {
    if n > 0 {
      PowerCommandsCount(key, connected, n - 1);
      var prev := PowerCommands(key, connected, n - 1);
      var q := StateQueries(connected);
      assert PowerCommands(key, connected, n) == (prev + [key]) + q;
    }
  }

  /** The fields of the session other than the logs. */
  datatype DeviceState = DeviceState(
    connected: Connection, isInitialized: bool, isAwake: bool,
    isPlayback: bool, playbackTimestamp: int, currentAppId: Option<string>,
    strategy: Strategy)

  /** The second half of a polling pass on the device state `s`: the new
      state, the commands issued and the events emitted. */
  datatype ForegroundStep = ForegroundStep(state: DeviceState, queries: seq<Command>, emitted: seq<Event>)

  /** `currentApp` on the device state `s`: nothing while asleep; otherwise
      the probe and the id it may replace. */
  function AppStep(s: DeviceState, windows: Reply, activities: Reply): ForegroundStep {
    if !s.isAwake then ForegroundStep(s, [], [])
    else
      var a := ProbeApp(s.strategy, windows, activities);
      var change := AppChanges(a.result, a.message, s.currentAppId, s.isInitialized);
      ForegroundStep(
        s.(strategy := a.strategy, currentAppId := if change then Some(a.message) else s.currentAppId),
        a.queries, if change then [AppChangeEvent] else [])
  }

  /** `currentPlayback` on the device state `s`: nothing while asleep;
      otherwise one sample read against the stored id, and debounced. */
  function PlaybackStep(s: DeviceState, buttons: Reply, resultState: Reply, playbackState: Reply,
                        audio: Reply, now: int): ForegroundStep
  {
    if !s.isAwake then ForegroundStep(s, [], [])
    else
      var sample := PlaybackSample(s.currentAppId, buttons, resultState, playbackState, audio);
      var step := Debounce(Playback(s.isPlayback, s.playbackTimestamp), s.isInitialized, sample, now);
      ForegroundStep(
        s.(isPlayback := step.state.playing, playbackTimestamp := step.state.stamp),
        PlaybackQueries(s.currentAppId, buttons, resultState),
        if step.emitted then [PlaybackEvent] else [])
  }

  /** The application step on an awake state, given its probe. */
  lemma AppStepOf(s: DeviceState, windows: Reply, activities: Reply, probe: AppProbe)
    requires s.isAwake
    requires probe == ProbeApp(s.strategy, windows, activities)
    ensures var change := AppChanges(probe.result, probe.message, s.currentAppId, s.isInitialized);
            AppStep(s, windows, activities)
            == ForegroundStep(s.(strategy := probe.strategy,
                                 currentAppId := if change then Some(probe.message) else s.currentAppId),
                              probe.queries, if change then [AppChangeEvent] else [])
  {
  }

  /** The playback step on an awake state, given its sample. */
  lemma PlaybackStepOf(s: DeviceState, buttons: Reply, resultState: Reply, playbackState: Reply,
                       audio: Reply, now: int, sample: bool)
    requires s.isAwake
    requires sample == PlaybackSample(s.currentAppId, buttons, resultState, playbackState, audio)
    ensures var step := Debounce(Playback(s.isPlayback, s.playbackTimestamp), s.isInitialized, sample, now);
            PlaybackStep(s, buttons, resultState, playbackState, audio, now)
            == ForegroundStep(s.(isPlayback := step.state.playing, playbackTimestamp := step.state.stamp),
                              PlaybackQueries(s.currentAppId, buttons, resultState),
                              if step.emitted then [PlaybackEvent] else [])
  {
  }

  /** `currentApp` then `currentPlayback`, the second reading the id the
      first left. */
  function Foreground(s: DeviceState, p: PassReplies, now: int): ForegroundStep {
    var a := AppStep(s, p.windows, p.activities);
    var b := PlaybackStep(a.state, p.buttons, p.resultState, p.playbackState, p.audio, now);
    ForegroundStep(b.state, a.queries + b.queries, a.emitted + b.emitted)
  }

  /** `Foreground` is the playback step taken on the state the application
      step left. */
  lemma ForegroundOf(s: DeviceState, p: PassReplies, now: int, a: ForegroundStep, b: ForegroundStep)
    requires a == AppStep(s, p.windows, p.activities)
    requires b == PlaybackStep(a.state, p.buttons, p.resultState, p.playbackState, p.audio, now)
    ensures Foreground(s, p, now) == ForegroundStep(b.state, a.queries + b.queries, a.emitted + b.emitted)
  {
  }

  /** The foreground half keeps the connection code, the awake flag, the
      first-pass flag and the reachable strategies; it emits at most an
      `appChange` and a `playback`, in that order; it asks the device
      nothing while asleep and at least two queries while awake. */
  lemma ForegroundFacts(s: DeviceState, p: PassReplies, now: int)
    requires StrategyValid(s.strategy)
    ensures var f := Foreground(s, p, now);
            f.state.connected == s.connected && f.state.isAwake == s.isAwake
            && f.state.isInitialized == s.isInitialized
            && StrategyValid(f.state.strategy)
            && |f.emitted| <= 2
            && (forall e :: e in f.emitted ==> e == AppChangeEvent || e == PlaybackEvent)
            && (|f.emitted| == 2 ==> f.emitted == [AppChangeEvent, PlaybackEvent])
            && (!s.isAwake ==> f == ForegroundStep(s, [], []))
            && (s.isAwake ==> |f.queries| >= 2)
  {
    if s.isAwake {
      ProbeKeepsStrategyValid(s.strategy, p.windows, p.activities);
    }
  }

  /** The result of `connect`: the fast path when awake, otherwise the status
      and the (lower-cased when successful) output. */
  datatype ConnectReply = AlreadyAwake | Attempt(status: Connection, message: string)

  /** The command results one polling pass reads. */
  datatype PassReplies = PassReplies(
    connect: Reply, power: Reply, windows: Reply, activities: Reply,
    buttons: Reply, resultState: Reply, playbackState: Reply, audio: Reply)

  class Session {
    const ip: string
    const interval: int
    const timeout: int
    const playbackDelayOff: int
    const retryPowerOn: int

    var inputUseWindows: bool
    var inputUseActivities: bool
    var inputError: bool

    var connected: Connection
    var isInitialized: bool
    var isAwake: bool
    var isPlayback: bool
    var currentAppId: Option<string>
    var playbackTimestamp: int

    /** The events emitted and the commands issued, oldest first. */
    var events: seq<Event>
    var issued: seq<Command>

    function InputStrategy(): Strategy
      reads this
    {
      Strategy(inputUseWindows, inputUseActivities, inputError)
    }

    function Snapshot(): DeviceState
      reads this
    {
      DeviceState(connected, isInitialized, isAwake, isPlayback, playbackTimestamp,
                  currentAppId, InputStrategy())
    }

    /** The settings keep their floors and the strategy flags stay reachable. */
    ghost predicate Valid()
      reads this
    {
      interval >= MinimumPeriod && timeout >= MinimumPeriod && retryPowerOn != 0
      && playbackDelayOff == PlaybackDelayOff
      && StrategyValid(InputStrategy())
    }

    /** `new adb(ip, config)`: the settings with their floors and defaults,
        both strategies on, nothing known about the device. */
    constructor (ip: string, interval: Option<int>, timeout: Option<int>,
                 retryPowerOn: Option<int>, now: int)
      requires ip != ""
      ensures Valid()
      ensures this.ip == ip && this.interval == PeriodSetting(interval)
      ensures this.timeout == PeriodSetting(timeout)
      ensures this.retryPowerOn == RetrySetting(retryPowerOn)
      ensures playbackDelayOff == PlaybackDelayOff
      ensures Snapshot() == DeviceState(Disconnected, false, false, false, now, None, InitialStrategy)
      ensures events == [] && issued == []
    {
      this.ip := ip;
      this.interval := PeriodSetting(interval);
      this.timeout := PeriodSetting(timeout);
      this.playbackDelayOff := PlaybackDelayOff;
      this.retryPowerOn := RetrySetting(retryPowerOn);
      inputUseWindows := true;
      inputUseActivities := true;
      inputError := false;
      connected := Disconnected;
      isInitialized := false;
      isAwake := false;
      isPlayback := false;
      currentAppId := None;
      playbackTimestamp := now;
      events := [];
      issued := [];
    }

    /** `connect`: skipped while awake; otherwise `adb connect`, the output
        classified, and an event when the value changed or on the first pass. */
    method Connect(reply: Reply) returns (r: ConnectReply)
      requires Valid()
      modifies this`connected, this`events, this`issued
      ensures Valid()
      ensures old(events) <= events && old(issued) <= issued
      ensures old(isAwake) ==>
                r == AlreadyAwake && connected == old(connected)
                && events == old(events) && issued == old(issued)
      ensures !old(isAwake) ==>
                r == Attempt(Classify(reply), if reply.ok then Lower(reply.message) else reply.message)
                && connected == Classify(reply)
                && issued == old(issued) + [AdbConnect(ip)]
                && events == old(events) + ConnectEvents(old(connected), Classify(reply), isInitialized)
    {
      if isAwake {
        return AlreadyAwake;
      }
      issued := issued + [AdbConnect(ip)];
      var message := if reply.ok then Lower(reply.message) else reply.message;
      var result := Classify(reply);
      if connected != result || !isInitialized {
        connected := result;
        events := events + [ConnectionEvent(connected)];
      }
      r := Attempt(result, message);
    }

    /** `state`: asleep without a query when disconnected; otherwise the
        power query parsed, and an event when the value changed or on the
        first pass. The reply carries the output put back together. */
    method State(reply: Reply) returns (r: Option<Reply>)
      requires Valid()
      modifies this`isAwake, this`events, this`issued
      ensures Valid()
      ensures old(events) <= events && old(issued) <= issued
      ensures isAwake == AwakeSample(connected, reply)
      ensures issued == old(issued) + StateQueries(connected)
      ensures events == old(events) + StateEvents(connected, isInitialized, old(isAwake), reply)
      ensures connected == Disconnected ==> r == None
      ensures connected != Disconnected ==>
                r == Some(Reply(ParseAwake(reply), if reply.ok then reply.message else ""))
    {
      if Code(connected) == 0 {
        isAwake := false;
        return None;
      }
      issued := issued + [AdbQuery(PowerState)];
      var fields := if reply.ok then Split(reply.message, '=') else [];
      var result := ParseAwake(reply);
      if result != isAwake || !isInitialized {
        isAwake := result;
        events := events + [AwakeChange(isAwake)];
      }
      if reply.ok {
        JoinSplit(reply.message, '=');
      }
      r := Some(Reply(result, Join(fields, "=")));
    }

    /** The probe of `currentApp`: the window-focus query, then the
        resumed-activity query, each while its strategy is on; the error flag
        when neither settled, the id normalised otherwise. */
    method ProbeInput(windows: Reply, activities: Reply) returns (result: bool, message: string)
      requires StrategyValid(InputStrategy())
      modifies this`inputUseWindows, this`inputUseActivities, this`inputError, this`issued
      ensures var p := ProbeApp(old(InputStrategy()), windows, activities);
              InputStrategy() == p.strategy && result == p.result && message == p.message
              && issued == old(issued) + p.queries
    {
      result := false;
      message := "";
      if inputUseWindows && !inputError {
        issued := issued + [AdbQuery(FocusedWindow)];
        if windows.ok {
          inputUseActivities := false;
          inputError := false;
        }
        result := windows.ok;
        message := windows.message;
      }
      if inputUseActivities && !inputError {
        issued := issued + [AdbQuery(ResumedActivity)];
        if activities.ok {
          inputUseWindows := false;
          inputError := false;
        }
        result := activities.ok;
        message := activities.message;
      }
      if inputUseWindows && inputUseActivities {
        inputError := true;
      } else {
        message := NormalizeAppId(message);
      }
    }

    /** `currentApp`: nothing while asleep; otherwise the probe, and an event
        when a successful probe (or the first pass) finds a different id. */
    method CurrentApp(windows: Reply, activities: Reply) returns (r: Option<string>)
      requires Valid()
      modifies this`inputUseWindows, this`inputUseActivities, this`inputError, this`currentAppId,
               this`events, this`issued
      ensures Valid()
      ensures old(events) <= events && old(issued) <= issued
      ensures !old(isAwake) ==>
                r == None && InputStrategy() == old(InputStrategy()) && currentAppId == old(currentAppId)
                && events == old(events) && issued == old(issued)
      ensures old(isAwake) ==>
                var p := ProbeApp(old(InputStrategy()), windows, activities);
                var change := AppChanges(p.result, p.message, old(currentAppId), isInitialized);
                InputStrategy() == p.strategy
                && currentAppId == (if change then Some(p.message) else old(currentAppId))
                && issued == old(issued) + p.queries
                && events == old(events) + (if change then [AppChangeEvent] else [])
                && r == currentAppId
    {
      if !isAwake {
        return None;
      }
      ProbeKeepsStrategyValid(InputStrategy(), windows, activities);
      var result, message := ProbeInput(windows, activities);
      TakeApp(result, message);
      r := currentAppId;
    }

    /** The id step of `currentApp` on one probe outcome: the id is replaced,
        and `appChange` emitted, when the probe succeeded (or on the first
        pass) and found a different id. */
    method TakeApp(result: bool, message: string)
      modifies this`currentAppId, this`events
      ensures var change := AppChanges(result, message, old(currentAppId), isInitialized);
              currentAppId == (if change then Some(message) else old(currentAppId))
              && events == old(events) + (if change then [AppChangeEvent] else [])
    {
      if (result || !isInitialized) && AppIdDiffers(currentAppId, message) {
        currentAppId := Some(message);
        events := events + [AppChangeEvent];
      }
    }

    /** `currentPlayback`: nothing while asleep; otherwise one playback
        sample taken at time `now`, debounced against the last playing one. */
    method CurrentPlayback(buttons: Reply, resultState: Reply, playbackState: Reply,
                           audio: Reply, now: int) returns (r: bool)
      requires Valid()
      modifies this`isPlayback, this`playbackTimestamp, this`events, this`issued
      ensures Valid()
      ensures old(events) <= events && old(issued) <= issued
      ensures !old(isAwake) ==>
                !r && isPlayback == old(isPlayback) && playbackTimestamp == old(playbackTimestamp)
                && events == old(events) && issued == old(issued)
      ensures old(isAwake) ==>
                var sample := PlaybackSample(old(currentAppId), buttons, resultState, playbackState, audio);
                var step := Debounce(Playback(old(isPlayback), old(playbackTimestamp)), isInitialized, sample, now);
                Playback(isPlayback, playbackTimestamp) == step.state
                && issued == old(issued) + PlaybackQueries(old(currentAppId), buttons, resultState)
                && events == old(events) + (if step.emitted then [PlaybackEvent] else [])
                && r == isPlayback
    {
      if !isAwake {
        return false;
      }
      var result := PlaybackSample(currentAppId, buttons, resultState, playbackState, audio);
      issued := issued + PlaybackQueries(currentAppId, buttons, resultState);
      TakePlayback(result, now);
      r := isPlayback;
    }

    /** The debounce of `currentPlayback` on one sample taken at time `now`:
        the stamp and the playing flag, and the `playback` event. */
    method TakePlayback(result: bool, now: int)
      requires Valid()
      modifies this`isPlayback, this`playbackTimestamp, this`events
      ensures Valid()
      ensures var step := Debounce(Playback(old(isPlayback), old(playbackTimestamp)), isInitialized, result, now);
              Playback(isPlayback, playbackTimestamp) == step.state
              && events == old(events) + (if step.emitted then [PlaybackEvent] else [])
    {
      if result {
        playbackTimestamp := now;
      }
      if isPlayback != result || !isInitialized {
        if now - playbackTimestamp >= playbackDelayOff || !isPlayback {
          playbackTimestamp := now;
          isPlayback := result;
          events := events + [PlaybackEvent];
        }
      }
    }

    /** `sendKeycode`: the command built from the key-code text is issued. */
    method SendKeycode(keycode: string)
      modifies this`issued
      ensures issued == old(issued) + [KeycodeCommand(keycode)]
    {
      var cmd := BuildKeycodeCommand(keycode);
      issued := issued + [cmd];
    }

    /** `launchApp`: the command the parameter routes to is issued. */
    method LaunchApp(param: string)
      modifies this`issued
      ensures issued == old(issued) + [LaunchCommand(param)]
    {
      issued := issued + [LaunchCommand(param)];
    }

    /** One pass of the do-while body of `power`: the key code, `state`, and
        the retry count decremented unless the target state was reached. The
        ghost parameters name the call's starting point. */
    method PowerIteration(keycode: string, on: bool, samples: nat -> Reply, retry: int, i: nat,
                          ghost start: bool, ghost events0: seq<Event>, ghost issued0: seq<Command>)
      returns (done: bool, left: int)
      requires Valid()
      requires isAwake == AwakeBefore(connected, samples, start, i)
      requires events == events0 + PowerTrail(connected, samples, isInitialized, start, i)
      requires issued == issued0 + PowerCommands(KeycodeCommand(keycode), connected, i)
      modifies this`isAwake, this`events, this`issued
      ensures Valid()
      ensures isAwake == AwakeBefore(connected, samples, start, i + 1)
      ensures events == events0 + PowerTrail(connected, samples, isInitialized, start, i + 1)
      ensures issued == issued0 + PowerCommands(KeycodeCommand(keycode), connected, i + 1)
      ensures PowerLoop(connected, samples, on, retry, i)
              == if done then PowerRun(i + 1, left) else PowerLoop(connected, samples, on, left, i + 1)
      ensures !done ==> 0 < left == retry - 1
    {
      SendKeycode(keycode);
      var _ := State(samples(i));
      AppendAssociates(events0, PowerTrail(connected, samples, isInitialized, start, i),
                       StateEvents(connected, isInitialized, AwakeBefore(connected, samples, start, i), samples(i)));
      AppendAssociates(issued0, PowerCommands(KeycodeCommand(keycode), connected, i),
                       [KeycodeCommand(keycode)] + StateQueries(connected));
      left := retry;
      if isAwake == on {
        done := true;
      } else {
        left := left - 1;
        done := !(left > 0);
      }
    }

    /** The do-while loop of `power`: iterate until the device reaches the
        target state or the retry count reaches zero. */
    method RetryLoop(keycode: string, on: bool, samples: nat -> Reply) returns (run: PowerRun)
      requires Valid()
      modifies this`isAwake, this`events, this`issued
      ensures Valid()
      ensures run == PowerLoop(connected, samples, on, retryPowerOn, 0)
      ensures isAwake == AwakeBefore(connected, samples, old(isAwake), run.keycodes)
      ensures issued == old(issued) + PowerCommands(KeycodeCommand(keycode), connected, run.keycodes)
      ensures events == old(events) + PowerTrail(connected, samples, isInitialized, old(isAwake), run.keycodes)
    {
      var retry := retryPowerOn;
      ghost var start := isAwake;
      ghost var events0 := events;
      ghost var issued0 := issued;
      var done := false;
      var i: nat := 0;
      while !done
        invariant Valid()
        invariant isAwake == AwakeBefore(connected, samples, start, i)
        invariant !done ==> (i == 0 ==> retry == retryPowerOn) && (i > 0 ==> retry > 0)
        invariant PowerLoop(connected, samples, on, retryPowerOn, 0)
                  == if done then PowerRun(i, retry) else PowerLoop(connected, samples, on, retry, i)
        invariant events == events0 + PowerTrail(connected, samples, isInitialized, start, i)
        invariant issued == issued0 + PowerCommands(KeycodeCommand(keycode), connected, i)
        decreases if done then 0 else 1, if retry > 0 then retry else 0
      {
        done, retry := PowerIteration(keycode, on, samples, retry, i, start, events0, issued0);
        i := i + 1;
      }
      run := PowerRun(i, retry);
    }

    /** `power(keycode, on)`: a start event; when the device is not yet in
        the target state, the retry loop of key code and `state`; an end
        event telling whether the retries ran out. `samples(i)` is the power
        reply read after the `i`-th key code. */
    method Power(keycode: string, on: bool, samples: nat -> Reply) returns (failed: bool)
      requires Valid()
      modifies this`isAwake, this`events, this`issued
      ensures Valid()
      ensures var outcome := PowerCycle(old(isAwake), on, retryPowerOn, connected, samples);
              failed == outcome.failed
              && isAwake == AwakeBefore(connected, samples, old(isAwake), outcome.keycodes)
              && issued == old(issued) + PowerCommands(KeycodeCommand(keycode), connected, outcome.keycodes)
              && events == old(events) + [PowerEvent(on)]
                           + PowerTrail(connected, samples, isInitialized, old(isAwake), outcome.keycodes)
                           + [PowerDoneEvent(on, failed)]
    {
      var retry := retryPowerOn;
      events := events + [PowerEvent(on)];
      if isAwake != on {
        var run := RetryLoop(keycode, on, samples);
        retry := run.retry;
      } else {
        retry := 10;
      }
      failed := !(retry > 0);
      events := events + [PowerDoneEvent(on, failed)];
    }

    /** `powerOn(keycode)`, the power key by default. */
    method PowerOn(keycode: Option<string>, samples: nat -> Reply) returns (failed: bool)
      requires Valid()
      modifies this`isAwake, this`events, this`issued
      ensures Valid()
      ensures var code := if keycode.Some? then keycode.value else PowerKeycode;
              var outcome := PowerCycle(old(isAwake), true, retryPowerOn, connected, samples);
              failed == outcome.failed
              && issued == old(issued) + PowerCommands(KeycodeCommand(code), connected, outcome.keycodes)
              && isAwake == AwakeBefore(connected, samples, old(isAwake), outcome.keycodes)
              && events == old(events) + [PowerEvent(true)]
                           + PowerTrail(connected, samples, isInitialized, old(isAwake), outcome.keycodes)
                           + [PowerDoneEvent(true, failed)]
    {
      var code := if keycode.Some? then keycode.value else PowerKeycode;
      failed := Power(code, true, samples);
    }

    /** `powerOff(keycode)`, the power key by default. */
    method PowerOff(keycode: Option<string>, samples: nat -> Reply) returns (failed: bool)
      requires Valid()
      modifies this`isAwake, this`events, this`issued
      ensures Valid()
      ensures var code := if keycode.Some? then keycode.value else PowerKeycode;
              var outcome := PowerCycle(old(isAwake), false, retryPowerOn, connected, samples);
              failed == outcome.failed
              && issued == old(issued) + PowerCommands(KeycodeCommand(code), connected, outcome.keycodes)
              && isAwake == AwakeBefore(connected, samples, old(isAwake), outcome.keycodes)
              && events == old(events) + [PowerEvent(false)]
                           + PowerTrail(connected, samples, isInitialized, old(isAwake), outcome.keycodes)
                           + [PowerDoneEvent(false, failed)]
    {
      var code := if keycode.Some? then keycode.value else PowerKeycode;
      failed := Power(code, false, samples);
    }

    /** The first half of a polling pass: `connect`, then `state`. */
    method ReadStatus(p: PassReplies)
      requires Valid()
      modifies this`connected, this`isAwake, this`events, this`issued
      ensures Valid()
      ensures connected == (if old(isAwake) then old(connected) else Classify(p.connect))
      ensures isAwake == AwakeSample(connected, p.power)
      ensures issued == old(issued) + (if old(isAwake) then [] else [AdbConnect(ip)]) + StateQueries(connected)
      ensures events == old(events)
                        + (if old(isAwake) then [] else ConnectEvents(old(connected), connected, isInitialized))
                        + StateEvents(connected, isInitialized, old(isAwake), p.power)
      ensures !old(isAwake) && !isInitialized ==>
                |events| > |old(events)| && events[|old(events)|] == ConnectionEvent(Classify(p.connect))
      ensures !old(isAwake) && !isInitialized && Classify(p.connect) != Disconnected ==>
                |events| > |old(events)| + 1 && events[|old(events)| + 1] == AwakeChange(ParseAwake(p.power))
    {
      var _ := Connect(p.connect);
      var _ := State(p.power);
    }

    /** The second half of a polling pass: `currentApp`, then `currentPlayback`. */
    method ReadForeground(p: PassReplies, now: int)
      requires Valid()
      modifies this`inputUseWindows, this`inputUseActivities, this`inputError, this`currentAppId,
               this`isPlayback, this`playbackTimestamp, this`events, this`issued
      ensures Valid()
      ensures var f := Foreground(old(Snapshot()), p, now);
              Snapshot() == f.state && issued == old(issued) + f.queries && events == old(events) + f.emitted
    {
      ghost var s0, issued0, events0 := Snapshot(), issued, events;
      ghost var a := AppStep(s0, p.windows, p.activities);
      if s0.isAwake {
        AppStepOf(s0, p.windows, p.activities, ProbeApp(s0.strategy, p.windows, p.activities));
      }
      var _ := CurrentApp(p.windows, p.activities);
      assert Snapshot() == a.state;
      ghost var s1 := Snapshot();
      ghost var b := PlaybackStep(s1, p.buttons, p.resultState, p.playbackState, p.audio, now);
      if s1.isAwake {
        PlaybackStepOf(s1, p.buttons, p.resultState, p.playbackState, p.audio, now,
                       PlaybackSample(s1.currentAppId, p.buttons, p.resultState, p.playbackState, p.audio));
      }
      var _ := CurrentPlayback(p.buttons, p.resultState, p.playbackState, p.audio, now);
      assert Snapshot() == b.state;
      ForegroundOf(s0, p, now, a, b);
      AppendAssociates(issued0, a.queries, b.queries);
      AppendAssociates(events0, a.emitted, b.emitted);
    }

    /** One polling pass at time `now`, the four queries one after the other. */
    method Poll(p: PassReplies, now: int)
      requires Valid()
      modifies this`connected, this`isAwake, this`inputUseWindows, this`inputUseActivities, this`inputError,
               this`currentAppId, this`isPlayback, this`playbackTimestamp, this`events, this`issued
      ensures Valid()
      ensures connected == (if old(isAwake) then old(connected) else Classify(p.connect))
      ensures isAwake == AwakeSample(connected, p.power)
      ensures var f := Foreground(old(Snapshot()).(connected := connected, isAwake := isAwake), p, now);
              Snapshot() == f.state
              && issued == old(issued) + (if old(isAwake) then [] else [AdbConnect(ip)]) + StateQueries(connected)
                           + f.queries
              && events == old(events)
                           + (if old(isAwake) then [] else ConnectEvents(old(connected), connected, isInitialized))
                           + StateEvents(connected, isInitialized, old(isAwake), p.power) + f.emitted
      ensures !old(isAwake) && !isInitialized ==>
                |events| > |old(events)| && events[|old(events)|] == ConnectionEvent(Classify(p.connect))
      ensures !old(isAwake) && !isInitialized && Classify(p.connect) != Disconnected ==>
                |events| > |old(events)| + 1 && events[|old(events)| + 1] == AwakeChange(ParseAwake(p.power))
    {
      ReadStatus(p);
      ReadForeground(p, now);
    }

    /** `update`: `adb start-server`; when it works, one first pass that
        emits every status, after which only changes are emitted. */
    method Update(check: Reply, p: PassReplies, now: int) returns (started: bool)
      requires Valid()
      modifies this`connected, this`isAwake, this`inputUseWindows, this`inputUseActivities, this`inputError,
               this`currentAppId, this`isPlayback, this`playbackTimestamp, this`isInitialized,
               this`events, this`issued
      ensures Valid()
      ensures started == check.ok
      ensures !check.ok ==>
                Snapshot() == old(Snapshot()) && events == old(events)
                && issued == old(issued) + [AdbStartServer]
      ensures check.ok ==>
                isInitialized
                && connected == (if old(isAwake) then old(connected) else Classify(p.connect))
                && isAwake == AwakeSample(connected, p.power)
                && var f := Foreground(old(Snapshot()).(connected := connected, isAwake := isAwake), p, now);
                   Snapshot() == f.state.(isInitialized := true)
                   && issued == old(issued) + [AdbStartServer]
                                + (if old(isAwake) then [] else [AdbConnect(ip)]) + StateQueries(connected)
                                + f.queries
                   && events == old(events)
                                + (if old(isAwake) then [] else ConnectEvents(old(connected), connected, old(isInitialized)))
                                + StateEvents(connected, old(isInitialized), old(isAwake), p.power) + f.emitted
      ensures check.ok && !old(isAwake) && !old(isInitialized) ==>
                |events| > |old(events)| && events[|old(events)|] == ConnectionEvent(Classify(p.connect))
      ensures check.ok && !old(isAwake) && !old(isInitialized) && Classify(p.connect) != Disconnected ==>
                |events| > |old(events)| + 1 && events[|old(events)| + 1] == AwakeChange(ParseAwake(p.power))
    {
      issued := issued + [AdbStartServer];
      if !check.ok {
        return false;
      }
      Poll(p, now);
      isInitialized := true;
      started := true;
    }
  }
}
