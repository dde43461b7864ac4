# adb session model

A Dafny model of the `adb` class in `index.js`. This class is a client that watches one Android TV device over the Android Debug Bridge. A polling pass makes four reads in turn, and each read may skip its commands:

- `connect` runs `adb connect` and classifies its output into a connection code. It issues nothing while the device is awake.
- `state` reads the display power dump, giving awake or asleep. When the code is DISCONNECTED it issues no query: the device is taken as asleep and nothing is emitted.
- `currentApp` reads the window focus or the resumed activity, giving the foreground application id. It issues the queries of the strategies still in use, and none once the error flag is set; it does nothing while asleep.
- `currentPlayback` reads the media-session button line, then one or two other dumps: the playback state (`resultState`, and `PlaybackState` when that is empty) or the audio players. It gives the playback state, and does nothing while asleep.

The session stores each result. `connect` and `state` emit on a change and on every first-pass reading. `currentApp` emits only when the new id differs from the stored one under JavaScript's loose `!=`, so a first pass can skip `appChange`. `currentPlayback` emits on a rise at once and on a fall only after the 10-second hold-off. A first pass against a disconnected device therefore emits only `disconnected`. The session also sends key codes, launches applications, and runs a power cycle: press a key and re-read the power state until the device reaches the target state or the retries run out.

Every command result is a parameter of the model, as a `Reply(ok, message)`. The commands the session issues go, in order, into the `issued` log of `Session`. The events it emits go into the `events` log. `Date.now()` is a `now` parameter.

Modules:

- `Text` (`text.dfy`): the JavaScript string operations the code uses, with their laws. These are `toLowerCase`, `includes`, `split` on one character, `join` and `trim`.
- `DeviceOutput` (`device_output.dfy`): the pure readings of command output. They cover connection classification, the power-state parse, application-id normalisation and the playback sample.
- `Commands` (`commands.dfy`): the commands, the status queries, and the routing of `sendKeycode` and `launchApp`. The two `sendKeycode` loops are methods proved against the functions they build.
- `Policy` (`policy.dfy`):
  - the constructor settings;
  - the two-strategy probe for the foreground application;
  - the playback debounce;
  - the power retry loop, as functions of their inputs.
- `AdbSession` (`session.dfy`): the `Session` class. It holds the fields of `adb`, and its methods change them as the JavaScript methods do. Each method's `ensures` ties the new fields and logs to the functions above. Its frame (`modifies this`field`) names the fields it may change.

## Model

Some specification functions have no contract of their own, and the rows of the lemmas and methods about them describe them:
- `DeviceOutput.ParseAwake`, `DeviceOutput.IsLauncher`, `DeviceOutput.UsesMediaSession` and `DeviceOutput.PlaybackSample`;
- `Policy.AwakeSample`, `Policy.ProbeApp`, `Policy.PowerCycle`, and `Policy.PowerLoop`, whose own contract is only a bound;
- `Commands.KeycodeCommand` and `Commands.LaunchCommand`;
- `AdbSession.StateQueries`, `AdbSession.ConnectEvents`, `AdbSession.StateEvents`, `AdbSession.PlaybackQueries`, `AdbSession.AppIdDiffers` and `AdbSession.AppChanges`;
- the pass steps `AdbSession.AppStep`, `AdbSession.PlaybackStep` and `AdbSession.Foreground`.

The lemmas `AdbSession.AppStepOf`, `AdbSession.PlaybackStepOf` and `AdbSession.ForegroundOf` only unfold those steps for the proofs of `ReadForeground`.

| member | source | states |
|---|---|---|
| DeviceOutput.Code | index.js:12-19 | the connection values take the codes 0 to 7; only DISCONNECTED is 0, which `state` tests as a falsy code, and only CONNECTED is 7 |
| DeviceOutput.Classify | index.js:108-120 | a failed `adb connect` is DISCONNECTED; CONNECTED needs a successful output containing "already connected" |
| DeviceOutput.ClassifyIsFirstMatch | index.js:110-120 | the classification is the first pattern of the ordered list (authorizing, unauthorized, refused, reset, timed out, failed) found in the lower-cased output; with none found, "already connected" gives CONNECTED and anything else DISCONNECTED |
| DeviceOutput.FirstMatchWins | index.js:112-117 | the first matching pattern decides, whatever later patterns also match |
| DeviceOutput.FirstMatchFallback | index.js:118-119 | with no failure pattern present, only "already connected" separates CONNECTED from DISCONNECTED |
| DeviceOutput.AuthorizingBeatsUnauthorized | index.js:112-113 | output holding both "device still authorizing" and "device unauthorized", in either order, is AUTHORIZING |
| DeviceOutput.AuthorizingWins | index.js:110-112 | successful output whose lower-case form contains "device still authorizing" is AUTHORIZING, whatever else it contains |
| DeviceOutput.ClassifyWithoutFailure | index.js:118-119 | lower-case output without failure wording is CONNECTED exactly when it contains "already connected" |
| DeviceOutput.FreshConnectIsDisconnected | index.js:118 | a successful first "connected to <ip:port>" is classified DISCONNECTED |
| DeviceOutput.AlreadyConnectedIsConnected | index.js:119 | "already connected to <ip:port>" is classified CONNECTED |
| DeviceOutput.ParseAwakeSound | index.js:167-168 | an awake sample comes from a successful line `key=true`, optionally followed by further `=` fields |
| DeviceOutput.ParseAwakeComplete | index.js:167-168 | every successful line `key=true[=...]` is read as awake |
| DeviceOutput.ParseAwakeIff | index.js:167-168 | the power parse is awake exactly when the query succeeded and the field after the first `=` is `true` |
| DeviceOutput.NormalizeAppId | index.js:214-228 | empty output resolves to `home`; the resolved id is `home`, or else a launcher-free word without `/` or space |
| DeviceOutput.NormalizeSingleWord | index.js:216-228 | a trimmed single word without `/` or space is the id itself, or `home` when it names a launcher |
| DeviceOutput.NormalizeFocusLine | index.js:216-228 | for a trimmed line `<prefix> <package>/<activity>` the id is the package, or `home` when the package names a launcher |
| DeviceOutput.NormalizeBareLine | index.js:216-228 | for a trimmed line `<package>/<activity>` the id is the package, or `home` when the package names a launcher |
| DeviceOutput.NormalizeSlashFree | index.js:216-228 | for a trimmed line without `/`, `<prefix> <word>`, the id is the last word, or `home` when that word names a launcher |
| DeviceOutput.TvLauncherIsHome | index.js:223-227 | `com.android.tv.launcher` is recognised as a launcher |
| DeviceOutput.YouTubeIsItself | index.js:223-228 | `com.google.android.youtube.tv` matches no launcher signature, in any letter case |
| DeviceOutput.LauncherLineIsHome | index.js:214-228 | `com.android.tv.launcher/.MainActivity` resolves to `home` |
| DeviceOutput.YouTubeLineIsYouTube | index.js:214-228 | a resumed-activity line for `com.google.android.youtube.tv/.MainActivity` resolves to the package, since only the package is tested |
| DeviceOutput.PlaybackNeedsMarker | index.js:276-289 | a playing sample needs `state=3` in the playback state read (resultState, or PlaybackState when that is empty), or `state:started` in the audio dump |
| DeviceOutput.MediaSessionSample | index.js:276-280 | on the media-session route, the sample is playing exactly when `resultState` shows `state=3`, or, when `resultState` is empty, when `PlaybackState` does |
| DeviceOutput.AudioReadsLastLine | index.js:281-289 | on the audio route, for a dump `<before>` newline `<last>`, the sample is playing exactly when the trimmed `<last>` shows `state:started`, whatever `<before>` holds |
| DeviceOutput.AudioReadsSingleLine | index.js:282-288 | on the audio route, a one-line dump gives a playing sample exactly when the trimmed line shows `state:started` |
| DeviceOutput.AudioIgnoresEarlierLines | index.js:286-288 | on the audio route, a started player on an earlier line does not make the sample playing when the last line does not show it |
| Commands.BuildShellScript | index.js:257-259 | the loop appending every word after `shell` with a space builds `SpacedWords` of those words |
| Commands.BuildKeyeventScript | index.js:260-265 | the loop appending `input keyevent <code>` with ` && ` between codes builds the ` && ` join of the segments |
| Commands.BuildKeycodeCommand | index.js:252-270 | `sendKeycode` issues the command `KeycodeCommand` describes |
| Commands.SpacedWordsIsJoin | index.js:259 | the shell words appended one by one are their space join plus one trailing space |
| Commands.KeycodeShellPassthrough | index.js:257-259 | `sendKeycode(w + " " + rest)`, for a first word `w` that is `shell` in any letter case, sends `rest` plus a trailing space to the local shell |
| Commands.KeycodeBatch | index.js:260-264 | n space-separated key codes, the first not `shell`, give n `input keyevent` segments joined by ` && ` in the device shell |
| Commands.LaunchShellPassthrough | index.js:243-245 | `launchApp(w + " " + rest)`, for a first word `w` that is `shell` in any letter case, sends `rest` unchanged to the local shell |
| Commands.LaunchPackage | index.js:246-247 | one word containing a dot is started as `monkey -p <word> 1` |
| Commands.LaunchVerbatim | index.js:248-249 | any other parameter goes to the device shell verbatim |
| Policy.PeriodSetting | index.js:28-31 | the interval and timeout are at least 1000; a configured value of 1000 or more is kept, anything else gives 1000 |
| Policy.RetrySetting | index.js:33 | a missing or zero retry count gives 10, any other count is kept; the count is never 0 |
| Policy.ProbeKeepsStrategyValid | index.js:188-213 | the probe keeps at least one strategy on, never turns a strategy back on, and sets the error flag exactly when both remain on |
| Policy.ProbeErrorLatches | index.js:188-213 | once the error flag is set, no query runs, the flags stay as they are and the result is false |
| Policy.ProbeSkipsDisabled | index.js:188-211 | a strategy that is off issues no query |
| Policy.ProbeWindowsSucceeds | index.js:188-228 | a successful window-focus query turns the activity strategy off, issues only that query, and its output gives the id |
| Policy.ProbeFallsBackToActivities | index.js:188-211 | from the start, a failing window query with a working activity query turns windows off for good; later probes issue only the activity query |
| Policy.ProbeBothFail | index.js:188-213 | from the start, two failing queries set the error flag and keep the raw failure text |
| Policy.Debounce | index.js:292-299 | a playing sample stamps `now`; a rise is taken and emitted at once; a fall from playing is taken exactly when `now - stamp >= 10000`, on the first pass too; a playing sample while playing emits nothing; after the first pass an unchanged value emits nothing; `isPlayback` changes only with an emission |
| Policy.DebounceHoldsOff | index.js:292-299 | after playing at t0, silence at t0 and t0+5000 keeps playback on, and silence at t0+10001 turns it off with one event |
| Policy.PowerLoopFacts | index.js:310-322 | the loop stops at the first sample in the target state, sends at most `retry` key codes, and ends with retries left exactly when it reached the target; ending with none left means all `retry` key codes were sent and the count is exactly 0 |
| Policy.PowerLoopExhausts | index.js:310-322 | with no sample in the target state the loop sends exactly `retry` key codes and ends with none left |
| Policy.PowerCycleFacts | index.js:305-330 | already in the target state: no key code, success; otherwise between 1 and `retryPowerOn` key codes, stopping at the first sample on target; failure exactly when the last sample missed it, and only after all `retryPowerOn` key codes; a negative count gives one key code and failure |
| Policy.PowerCycleExhausts | index.js:305-330 | a device that never reaches the target gets `retryPowerOn` key codes and the call fails |
| AdbSession.PowerTrailIsAwakeOrSleep | index.js:310-322 | inside a power cycle, at most one event per iteration is emitted, and it is `awake` or `sleep` |
| AdbSession.PowerCommandsCount | index.js:310-322 | a power cycle issues one key-code command per iteration, plus a power query per iteration when connected, and nothing else |
| AdbSession.FirstIdComparedWithFalse | index.js:231-236 | before any id is stored, the loose comparison with `false` equates a trimmed id exactly when it is made of zeros only: an empty id is not taken, while an id starting with another character (such as `home`) is |
| AdbSession.ForegroundFacts | index.js:140-141 | `currentApp` then `currentPlayback` keep the connection code, the awake and first-pass flags and a reachable strategy; asleep they change nothing, issue nothing and emit nothing; awake they issue at least two queries and emit at most `appChange` then `playback`, in that order |
| AdbSession.AnyOtherCodeIsQueried | index.js:160-165 | every code other than DISCONNECTED counts as connected: the power query runs and its output decides |
| AdbSession.Session.constructor | index.js:21-56 | the settings take their floors and defaults, both strategies are on, the device is disconnected, asleep and not playing, no id is stored and both logs are empty |
| AdbSession.Session.Connect | index.js:105-129 | while awake, nothing is issued and nothing changes; otherwise `adb connect` is issued, the stored code becomes the classification, and one connected/disconnected event is emitted exactly when the code changed or on the first pass |
| AdbSession.Session.State | index.js:159-178 | disconnected: asleep, no query, no event; otherwise the power query is issued, the awake flag becomes the parse, one awake/sleep event is emitted exactly when it changed or on the first pass, and the output is returned rejoined |
| AdbSession.Session.ProbeInput | index.js:185-229 | the in-place strategy flags, the queries issued, the result and the resolved id are those of `ProbeApp` |
| AdbSession.Session.CurrentApp | index.js:182-239 | asleep: nothing; otherwise the probe, and the id is replaced with one `appChange` exactly when the probe succeeded (or on the first pass) and the new id differs |
| AdbSession.Session.TakeApp | index.js:231-236 | the id becomes the probe's and one `appChange` is emitted exactly when the probe succeeded (or on the first pass) and the id differs under the loose comparison; otherwise nothing changes |
| AdbSession.Session.CurrentPlayback | index.js:272-302 | asleep: false and nothing changes; otherwise the sample's queries are issued, and the playback fields and the `playback` event follow `Debounce` on the sample |
| AdbSession.Session.TakePlayback | index.js:292-299 | the playing flag, the stamp and the `playback` event follow `Debounce` on the sample |
| AdbSession.Session.SendKeycode | index.js:252-270 | exactly the command `KeycodeCommand` builds is issued |
| AdbSession.Session.LaunchApp | index.js:240-251 | exactly the command `LaunchCommand` routes to is issued |
| AdbSession.Session.PowerIteration | index.js:311-321 | one loop pass issues the key code and the power query, updates the awake flag, and decrements the retry count unless the target was reached, advancing `PowerLoop` by one step |
| AdbSession.Session.RetryLoop | index.js:310-322 | the do-while loop ends as `PowerLoop` says, with the commands and events of that many iterations |
| AdbSession.Session.Power | index.js:305-331 | the result is `PowerCycle`'s failure flag; the log holds one start event, the iterations' awake/sleep events, then one success or failure event |
| AdbSession.Session.PowerOn | index.js:332-334 | `power` with the target awake and the power key by default |
| AdbSession.Session.PowerOff | index.js:335-337 | `power` with the target asleep and the power key by default |
| AdbSession.Session.ReadStatus | index.js:138-139 | `connect` then `state`: the code is kept while awake and is the classification otherwise; the awake flag is the power sample under that code; the commands are `adb connect` (unless awake) then the power query (unless disconnected); the events are those of `ConnectEvents` then `StateEvents` |
| AdbSession.Session.ReadForeground | index.js:140-141 | `currentApp` then `currentPlayback`: asleep, nothing changes; awake, the probe sets the strategy and possibly the id (`AppStep`), the playback sample is read against the id just stored and debounced (`PlaybackStep`); the log gains the probe's queries then the playback queries, and the events are `appChange` (if any) then `playback` (if any) |
| AdbSession.Session.Poll | index.js:137-141 | one pass of the four reads: the connection code and awake flag are those `ReadStatus` states, awake or not; the whole new device state is `Foreground` taken on that code and flag; the commands are `adb connect` (unless awake), the power query (unless disconnected), then the foreground queries; the events are `ConnectEvents`, `StateEvents`, then the foreground events; on the first pass the connection event comes first and, when connected, the awake/sleep event second |
| AdbSession.Session.Update | index.js:134-156 | `adb start-server` is issued first and the result says whether it worked; on failure that is the only command and the device state and the events are unchanged; on success one polling pass runs with the first-pass flag as it was, with the state, commands and events `Poll` states after `adb start-server`, and the session is then marked initialised |

## Left out

- Process spawning and output capture (`adb`, `osShell`, `adbShell`, index.js:71-99), and the kill timers `autoKill` and `kill`: these are operating-system I/O. Each command is a `Command` in the `issued` log, and its result is a parameter.
- The `setInterval` loop and the `Promise.all` fan-out of `update`, and `disconnect`'s `clearInterval`: these involve timing and concurrency. A later tick is modelled as `Poll`, which runs the four reads one after the other. Interleavings of their awaits are not modelled. Under `Promise.all` the guards of `state`, `currentApp` and `currentPlayback` read the fields as the previous tick left them, so a device can be awake while disconnected; `Session.Valid` therefore does not claim that an awake device is connected.
- `sleep(500)` in the power loop: timing only.
- `checkTail` and `model`: thin wrappers over one shell command, with no decision on their output.
- The branch `message === true` in `currentPlayback`: it never holds for a string.
- `EventEmitter` delivery and listeners: only the order of emitted events is kept.
- The `throw` of `update` when `adb start-server` fails: `Update` returns false instead.
- The test files `test.js`, `test-keypress.js` and `test-mouse.js`: they are live-device and interactive scripts.
- `Text.Lower`: lower-cases ASCII letters only. `toLowerCase` also maps non-ASCII letters. The patterns compared are ASCII, but the text that `Connect` returns (`Attempt`'s message) keeps non-ASCII capitals where `connect` returns them lower-cased.
- `Text.IsSpace`: covers the ASCII white space and U+00A0, U+2028, U+2029 and U+FEFF. The other Unicode space separators that `trim` also removes are not included.
- `AdbSession.AppIdDiffers`: compares a missing id (`false`) loosely only with strings whose trimmed text is empty or only `0`. Other spellings that JavaScript converts to zero, such as `0x0`, `0.0` or `-0`, are not modelled.
- `AdbSession.Session.constructor`: requires a non-empty ip. `new adb("")` returns before `super()`, which throws in JavaScript, so no session exists.
- `AdbSession.Session.CurrentPlayback` and `AdbSession.Session.Poll`: one `now` stands for the several `Date.now()` readings of one call.
- The failure of a strategy probe is never reset: once `inputError` is set, the foreground application is no longer read. The model follows the code here.
- `power` has no guard against overlapping power cycles, and connection status is not cross-checked against `adb devices`. The code has neither, so the model has neither.
- `PowerCycle` reads the power samples as a function from the iteration number to a reply, `samples(i)`, instead of live device output.
- `Policy.PeriodSetting` and `Policy.RetrySetting`: a setting is taken as an optional integer. A JavaScript Number setting can be fractional or `NaN`, and the model does not cover either. A retry count of 2.5 gives three key presses (2.5, 1.5, 0.5, then -0.5 stops the loop), which `PowerLoop` cannot express. `NaN` falls back to the default through `||`.
