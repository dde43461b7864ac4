/** How the session reads the text that `adb` prints: connect output becomes
    a connection code, the power dump becomes an awake flag, the focus dump
    becomes an application id, and the media dumps become a playing flag. */
module DeviceOutput {
  import opened Text
  import opened Wrappers

  /** What one external command gave back: whether it exited cleanly, and its
      trimmed output (standard error when it failed). */
  datatype Reply = Reply(ok: bool, message: string)

  /** The connection values of the session, in the order of their codes. */
  datatype Connection =
    | Disconnected | Authorizing | Unauthorized | ConnectionRefused
    | ConnectionReset | TimedOut | Failed | Connected

  /** The integer each connection value has in the session (0 to 7). */
  function Code(c: Connection): (n: int)
    ensures 0 <= n <= 7
    ensures n == 0 <==> c == Disconnected
    ensures n == 7 <==> c == Connected
  {
    match c
    case Disconnected => 0
    case Authorizing => 1
    case Unauthorized => 2
    case ConnectionRefused => 3
    case ConnectionReset => 4
    case TimedOut => 5
    case Failed => 6
    case Connected => 7
  }

  // ---------------------------------------------------------------------------
  // Connect output

  const AuthorizingText := "device still authorizing"
  const UnauthorizedText := "device unauthorized"
  const RefusedText := "connection refused"
  const ResetText := "connection reset by peer"
  const TimedOutText := "operation timed out"
  const FailedText := "failed to connect"
  const AlreadyConnectedText := "already connected"

  /** The classification of the output of `adb connect <ip>`, as the session
      writes it: a chain of substring tests on the lower-cased output. */
  function Classify(reply: Reply): (c: Connection)
    ensures !reply.ok ==> c == Disconnected
    ensures c == Connected ==> reply.ok && Contains(Lower(reply.message), AlreadyConnectedText)
  {
    if reply.ok then
      var m := Lower(reply.message);
      if Contains(m, AuthorizingText) then Authorizing
      else if Contains(m, UnauthorizedText) then Unauthorized
      else if Contains(m, RefusedText) then ConnectionRefused
      else if Contains(m, ResetText) then ConnectionReset
      else if Contains(m, TimedOutText) then TimedOut
      else if Contains(m, FailedText) then Failed
      else if !Contains(m, AlreadyConnectedText) then Disconnected
      else Connected
    else Disconnected
  }

  /** The same classification as an ordered table of (substring, outcome). */
  const Rules: seq<(string, Connection)> := [
    (AuthorizingText, Authorizing),
    (UnauthorizedText, Unauthorized),
    (RefusedText, ConnectionRefused),
    (ResetText, ConnectionReset),
    (TimedOutText, TimedOut),
    (FailedText, Failed)
  ]

  /** The outcome of the first rule whose substring occurs in `text`; with
      none, "already connected" decides between connected and disconnected. */
  function FirstMatch(rules: seq<(string, Connection)>, text: string): Connection {
    if rules == [] then
      (if Contains(text, AlreadyConnectedText) then Connected else Disconnected)
    else if Contains(text, rules[0].0) then rules[0].1
    else FirstMatch(rules[1..], text)
  }

  /** The rule at index `i` decides when it matches and no earlier one does. */
  lemma {:induction false} FirstMatchWins(rules: seq<(string, Connection)>, text: string, i: nat)
    requires i < |rules| && Contains(text, rules[i].0)
    requires forall j :: 0 <= j < i ==> !Contains(text, rules[j].0)
    ensures FirstMatch(rules, text) == rules[i].1
  {
    if i > 0 {
      assert !Contains(text, rules[0].0);
      FirstMatchWins(rules[1..], text, i - 1);
    }
  }

  /** With no rule matching, the fallback decides. */
  lemma {:induction false} FirstMatchFallback(rules: seq<(string, Connection)>, text: string)
    requires forall j :: 0 <= j < |rules| ==> !Contains(text, rules[j].0)
    ensures FirstMatch(rules, text)
            == (if Contains(text, AlreadyConnectedText) then Connected else Disconnected)
  {
    if rules != [] {
      assert !Contains(text, rules[0].0);
      FirstMatchFallback(rules[1..], text);
    }
  }

  /** On a successful command the classification is the first-match table. */
  lemma ClassifyIsFirstMatch(message: string)
    ensures Classify(Reply(true, message)) == FirstMatch(Rules, Lower(message))
  {
    var m := Lower(message);
    if Contains(m, AuthorizingText) {
      FirstMatchWins(Rules, m, 0);
    } else if Contains(m, UnauthorizedText) {
      FirstMatchWins(Rules, m, 1);
    } else if Contains(m, RefusedText) {
      FirstMatchWins(Rules, m, 2);
    } else if Contains(m, ResetText) {
      FirstMatchWins(Rules, m, 3);
    } else if Contains(m, TimedOutText) {
      FirstMatchWins(Rules, m, 4);
    } else if Contains(m, FailedText) {
      FirstMatchWins(Rules, m, 5);
    } else {
      FirstMatchFallback(Rules, m);
    }
  }

  /** Successful output whose lower-case form holds "device still
      authorizing" is AUTHORIZING, whatever else it holds. */
  lemma AuthorizingWins(m: string)
    requires Contains(Lower(m), AuthorizingText)
    ensures Classify(Reply(true, m)) == Authorizing
  {
    ClassifyIsFirstMatch(m);
    FirstMatchWins(Rules, Lower(m), 0);
  }

  /** Lower-casing keeps the already lower-case authorizing wording. */
  lemma LowerKeepsAuthorizing(x: string, y: string)
    ensures Contains(Lower(x + AuthorizingText + y), AuthorizingText)
  {
    LowerAppend(x + AuthorizingText, y);
    LowerAppend(x, AuthorizingText);
    LowerOfLower(AuthorizingText);
    ContainsInfix(Lower(x), AuthorizingText, Lower(y));
  }

  /** "Still authorizing" wins over "unauthorized", in either order. */
  lemma AuthorizingBeatsUnauthorized(a: string, b: string, c: string)
    ensures Classify(Reply(true, a + AuthorizingText + b + UnauthorizedText + c)) == Authorizing
    ensures Classify(Reply(true, a + UnauthorizedText + b + AuthorizingText + c)) == Authorizing
  {
    assert a + AuthorizingText + b + UnauthorizedText + c == a + AuthorizingText + (b + UnauthorizedText + c);
    LowerKeepsAuthorizing(a, b + UnauthorizedText + c);
    AuthorizingWins(a + AuthorizingText + (b + UnauthorizedText + c));
    assert a + UnauthorizedText + b + AuthorizingText + c == (a + UnauthorizedText + b) + AuthorizingText + c;
    LowerKeepsAuthorizing(a + UnauthorizedText + b, c);
    AuthorizingWins((a + UnauthorizedText + b) + AuthorizingText + c);
  }

  /** The characters an `adb` endpoint is written with. */
  predicate IsEndpoint(ip: string) {
    forall i :: 0 <= i < |ip| ==> ('0' <= ip[i] <= '9' || ip[i] == '.' || ip[i] == ':')
  }

  /** A character that is no endpoint character and not in `prefix` is not in `prefix + ip`. */
  lemma EndpointLacks(prefix: string, ip: string, c: char)
    requires IsEndpoint(ip) && c !in prefix && !('0' <= c <= '9' || c == '.' || c == ':')
    ensures c !in prefix + ip
  {
    var s := prefix + ip;
    forall i | 0 <= i < |s| ensures s[i] != c {
      if i >= |prefix| { assert s[i] == ip[i - |prefix|]; }
    }
  }

  lemma EndpointLowerCase(prefix: string, ip: string)
    requires IsEndpoint(ip)
    requires forall i :: 0 <= i < |prefix| ==> 'a' <= prefix[i] <= 'z' || prefix[i] == ' '
    ensures Lower(prefix + ip) == prefix + ip
  {
    var s := prefix + ip;
    forall i | 0 <= i < |s| ensures !('A' <= s[i] <= 'Z') {
      if i >= |prefix| { assert s[i] == ip[i - |prefix|]; }
    }
    LowerOfLower(s);
  }

  /** None of the six failure wordings occurs in a text without `v`, `f` and `p`. */
  lemma NoFailureWording(s: string)
    requires 'v' !in s && 'f' !in s && 'p' !in s
    ensures !Contains(s, AuthorizingText) && !Contains(s, UnauthorizedText)
    ensures !Contains(s, RefusedText) && !Contains(s, ResetText)
    ensures !Contains(s, TimedOutText) && !Contains(s, FailedText)
  {
    assert AuthorizingText[2] == 'v' && UnauthorizedText[2] == 'v';
    assert RefusedText[13] == 'f' && ResetText[20] == 'p';
    assert TimedOutText[1] == 'p' && FailedText[0] == 'f';
    MissingCharNotContained(s, AuthorizingText, 'v');
    MissingCharNotContained(s, UnauthorizedText, 'v');
    MissingCharNotContained(s, RefusedText, 'f');
    MissingCharNotContained(s, ResetText, 'p');
    MissingCharNotContained(s, TimedOutText, 'p');
    MissingCharNotContained(s, FailedText, 'f');
  }

  /** A lower-case text with none of the six failure wordings is connected
      exactly when it says "already connected". */
  lemma ClassifyWithoutFailure(s: string)
    requires Lower(s) == s
    requires !Contains(s, AuthorizingText) && !Contains(s, UnauthorizedText)
    requires !Contains(s, RefusedText) && !Contains(s, ResetText)
    requires !Contains(s, TimedOutText) && !Contains(s, FailedText)
    ensures Classify(Reply(true, s))
            == (if Contains(s, AlreadyConnectedText) then Connected else Disconnected)
  {
  }

  /** A first, successful "connected to <ip>" is classified as disconnected:
      only the "already connected" wording counts as connected. */
  lemma FreshConnectIsDisconnected(ip: string)
    requires IsEndpoint(ip)
    ensures Classify(Reply(true, "connected to " + ip)) == Disconnected
  {
    var prefix := "connected to ";
    EndpointLowerCase(prefix, ip);
    EndpointLacks(prefix, ip, 'v');
    EndpointLacks(prefix, ip, 'f');
    EndpointLacks(prefix, ip, 'p');
    EndpointLacks(prefix, ip, 'a');
    NoFailureWording(prefix + ip);
    assert AlreadyConnectedText[0] == 'a';
    MissingCharNotContained(prefix + ip, AlreadyConnectedText, 'a');
    ClassifyWithoutFailure(prefix + ip);
  }

  /** "already connected to <ip>" has none of the failure wordings. */
  lemma AlreadyConnectedLacksFailure(ip: string)
    requires IsEndpoint(ip)
    ensures var m := "already connected to " + ip;
            Lower(m) == m
            && !Contains(m, AuthorizingText) && !Contains(m, UnauthorizedText)
            && !Contains(m, RefusedText) && !Contains(m, ResetText)
            && !Contains(m, TimedOutText) && !Contains(m, FailedText)
  {
    var prefix := "already connected to ";
    EndpointLowerCase(prefix, ip);
    EndpointLacks(prefix, ip, 'v');
    EndpointLacks(prefix, ip, 'f');
    EndpointLacks(prefix, ip, 'p');
    NoFailureWording(prefix + ip);
  }

  /** "already connected to <ip>" holds the connected wording. */
  lemma AlreadyConnectedHasWording(ip: string)
    ensures Contains("already connected to " + ip, AlreadyConnectedText)
  {
    assert "already connected to " + ip == [] + AlreadyConnectedText + (" to " + ip);
    ContainsInfix([], AlreadyConnectedText, " to " + ip);
  }

  /** "already connected to <ip>" is classified as connected. */
  lemma AlreadyConnectedIsConnected(ip: string)
    requires IsEndpoint(ip)
    ensures Classify(Reply(true, "already connected to " + ip)) == Connected
  {
    AlreadyConnectedLacksFailure(ip);
    AlreadyConnectedHasWording(ip);
    ClassifyWithoutFailure("already connected to " + ip);
  }

  // ---------------------------------------------------------------------------
  // Power dump

  /** The awake flag read from `dumpsys power | grep mHoldingDisplay`: the field
      after the first `=` is exactly `true`. */
  function ParseAwake(reply: Reply): bool {
    var fields := if reply.ok then Split(reply.message, '=') else [];
    if |fields| < 1 then false else |fields| > 1 && fields[1] == "true"
  }

  /** `m` is `key=true`, optionally followed by further `=`-fields. */
  ghost predicate AwakeLine(m: string, key: string, rest: string) {
    '=' !in key && (rest == [] || rest[0] == '=') && m == key + "=true" + rest
  }

  /** A set awake flag comes from a successful `key=true[=...]` line. */
  lemma ParseAwakeSound(reply: Reply)
    requires ParseAwake(reply)
    ensures reply.ok && AwakeLine(reply.message, Split(reply.message, '=')[0],
                                  AwakeRest(Split(reply.message, '=')))
  {
    var m := reply.message;
    var f := Split(m, '=');
    JoinSplit(m, '=');
    SplitFieldsLackSeparator(m, '=');
    var rest := AwakeRest(f);
    assert f[1..][1..] == f[2..];
    assert Join(f[1..], "=") == "true" + rest;
    assert m == f[0] + "=" + ("true" + rest);
  }

  /** The fields after `key=true`, put back together with their separators. */
  function AwakeRest(f: seq<string>): string {
    if |f| > 2 then "=" + Join(f[2..], "=") else ""
  }

  /** A successful `key=true[=...]` line sets the awake flag. */
  lemma ParseAwakeComplete(reply: Reply, key: string, rest: string)
    requires reply.ok && AwakeLine(reply.message, key, rest)
    ensures ParseAwake(reply)
  {
    var m := reply.message;
    assert m == key + ['='] + ("true" + rest);
    SplitAtFirst(key, "true" + rest, '=');
    if rest == [] {
      assert "true" + rest == "true";
      SplitWithoutSeparator("true", '=');
    } else {
      assert "true" + rest == "true" + ['='] + rest[1..];
      SplitAtFirst("true", rest[1..], '=');
    }
  }

  /** The awake flag holds exactly for a successful reply shaped `key=true[=...]`. */
  lemma ParseAwakeIff(reply: Reply)
    ensures ParseAwake(reply) <==> reply.ok && exists key, rest :: AwakeLine(reply.message, key, rest)
  {
    if ParseAwake(reply) {
      ParseAwakeSound(reply);
    }
    if reply.ok && exists key, rest :: AwakeLine(reply.message, key, rest) {
      var key, rest :| AwakeLine(reply.message, key, rest);
      ParseAwakeComplete(reply, key, rest);
    }
  }

  // ---------------------------------------------------------------------------
  // Foreground application

  const HomeAppId := "home"

  /** A launcher or home-screen activity. */
  predicate IsLauncher(id: string) {
    var l := Lower(id);
    Contains(l, "launcher") || Contains(l, "mainactivity") || Contains(l, "recentstvactivity")
  }

  /** The last space-separated word before the first `/` of the trimmed output. */
  function LastToken(message: string): string {
    var parts := Split(Trim(message), '/');
    var words := Split(parts[0], ' ');
    words[|words| - 1]
  }

  /** The application id the session reads from a focus or resumed-activity
      line: empty output and launcher activities are the home screen. */
  function NormalizeAppId(message: string): (id: string)
    ensures id == HomeAppId || ('/' !in id && ' ' !in id && !IsLauncher(id))
    ensures message == "" ==> id == HomeAppId
  {
    if message == "" then HomeAppId
    else
      var token := LastToken(message);
      SplitFieldsLackSeparator(Trim(message), '/');
      SplitFieldsLackSeparator(Split(Trim(message), '/')[0], ' ');
      SplitFieldsWithin(Split(Trim(message), '/')[0], ' ', '/');
      if IsLauncher(token) then HomeAppId else token
  }

  /** A trimmed single word without `/` or space is its own id, or home when
      it names a launcher. */
  lemma NormalizeSingleWord(w: string)
    requires w != [] && '/' !in w && ' ' !in w && Trim(w) == w
    ensures NormalizeAppId(w) == (if IsLauncher(w) then HomeAppId else w)
  {
    SplitWithoutSeparator(w, '/');
    SplitWithoutSeparator(w, ' ');
  }

  /** For a trimmed line `<prefix> <pkg>/<activity>`, the id is `pkg`, or home
      when `pkg` names a launcher. */
  lemma NormalizeFocusLine(prefix: string, pkg: string, activity: string)
    requires '/' !in prefix && '/' !in pkg && ' ' !in pkg
    requires var m := prefix + " " + pkg + "/" + activity; Trim(m) == m
    ensures NormalizeAppId(prefix + " " + pkg + "/" + activity)
            == (if IsLauncher(pkg) then HomeAppId else pkg)
  {
    var m := prefix + " " + pkg + "/" + activity;
    assert m == (prefix + " " + pkg) + ['/'] + activity;
    assert '/' !in prefix + " " + pkg;
    SplitAtFirst(prefix + " " + pkg, activity, '/');
    assert prefix + " " + pkg == prefix + [' '] + pkg;
    SplitToLast(prefix, pkg, ' ');
    SplitWithoutSeparator(pkg, ' ');
  }

  /** For a trimmed line `<pkg>/<activity>`, the id is `pkg`, or home when `pkg`
      names a launcher. */
  lemma NormalizeBareLine(pkg: string, activity: string)
    requires '/' !in pkg && ' ' !in pkg
    requires var m := pkg + "/" + activity; Trim(m) == m
    ensures NormalizeAppId(pkg + "/" + activity) == (if IsLauncher(pkg) then HomeAppId else pkg)
  {
    var m := pkg + "/" + activity;
    assert m == pkg + ['/'] + activity;
    SplitAtFirst(pkg, activity, '/');
    SplitWithoutSeparator(pkg, ' ');
  }

  /** For a trimmed line without `/`, `<prefix> <word>`, the id is its last
      word, or home when that word names a launcher. */
  lemma NormalizeSlashFree(prefix: string, word: string)
    requires '/' !in prefix && '/' !in word && ' ' !in word
    requires var m := prefix + " " + word; Trim(m) == m
    ensures NormalizeAppId(prefix + " " + word) == (if IsLauncher(word) then HomeAppId else word)
  {
    LastTokenSlashFree(prefix + " " + word, prefix, word);
  }

  /** Without a `/`, the token read is the last space-separated word. */
  lemma LastTokenSlashFree(m: string, prefix: string, word: string)
    requires m == prefix + [' '] + word && '/' !in m && ' ' !in word && Trim(m) == m
    ensures LastToken(m) == word
  {
    SplitWithoutSeparator(m, '/');
    SplitToLast(prefix, word, ' ');
    SplitWithoutSeparator(word, ' ');
  }

  /** The last field of `a<c>b` is the last field of `b`. */
  lemma {:induction false} SplitToLast(a: string, b: string, c: char)
    ensures var f := Split(a + [c] + b, c); var g := Split(b, c);
            |f| >= 2 && f[|f| - 1] == g[|g| - 1]
    decreases |a|
  {
    if a == [] {
      assert a + [c] + b == [c] + b;
      assert ([c] + b)[1..] == b;
    } else {
      var s := a + [c] + b;
      assert s[1..] == a[1..] + [c] + b;
      SplitToLast(a[1..], b, c);
    }
  }

  /** The package of the Android TV home screen. */
  const TvLauncherPackage := "com.android.tv.launcher"
  /** The package of the YouTube application for TV. */
  const YouTubePackage := "com.google.android.youtube.tv"

  /** Both packages have the shape `NormalizeBareLine` reads: one word
      without a slash. */
  lemma TvLauncherIsToken()
    ensures '/' !in TvLauncherPackage && ' ' !in TvLauncherPackage && !IsSpace(TvLauncherPackage[0])
  {
  }

  lemma YouTubeIsToken()
    ensures '/' !in YouTubePackage && ' ' !in YouTubePackage && !IsSpace(YouTubePackage[0])
  {
  }

  /** The Android TV home-screen package is recognised as a launcher, so
      `com.android.tv.launcher/.MainActivity` reads as home. */
  lemma TvLauncherIsHome()
    ensures IsLauncher(TvLauncherPackage)
  {
    LowerOfLower(TvLauncherPackage);
    assert TvLauncherPackage == "com.android.tv." + "launcher" + "";
    ContainsInfix("com.android.tv.", "launcher", "");
  }

  /** `mainactivity` does not occur in `com<b>` when `b` starts with `.` and has no `m`. */
  lemma NoMainActivityAfterCom(a: string, b: string)
    requires a == "com" && 'm' !in b && b != [] && b[0] == '.'
    ensures !Contains(a + b, "mainactivity")
  {
    var s := a + b;
    var sub := "mainactivity";
    ContainsIff(s, sub);
    forall i: nat ensures !OccursAt(s, sub, i) {
      if i + |sub| <= |s| {
        assert s[i..i + |sub|][0] == s[i] && s[i..i + |sub|][1] == s[i + 1];
        if i >= 3 { assert s[i] == b[i - 3]; }
        else if i == 2 { assert s[3] == b[0]; }
      }
    }
  }

  lemma YouTubeLacksMainActivity()
    ensures !Contains(YouTubePackage, "mainactivity")
  {
    assert YouTubePackage == "com" + ".google.android.youtube.tv";
    NoMainActivityAfterCom("com", ".google.android.youtube.tv");
  }

  lemma YouTubeIsLowerCase()
    ensures Lower(YouTubePackage) == YouTubePackage
  {
    LowerOfLower(YouTubePackage);
  }

  lemma YouTubeLacksLauncher()
    ensures !Contains(YouTubePackage, "launcher")
  {
    MissingCharNotContained(YouTubePackage, "launcher", 'h');
  }

  lemma YouTubeLacksRecents()
    ensures !Contains(YouTubePackage, "recentstvactivity")
  {
    assert "recentstvactivity"[6] == 's';
    MissingCharNotContained(YouTubePackage, "recentstvactivity", 's');
  }

  /** The YouTube package is no launcher, so
      `com.google.android.youtube.tv/.MainActivity` reads as that package:
      only the part before `/` is tested. */
  lemma YouTubeIsItself()
    ensures !IsLauncher(YouTubePackage)
  {
    YouTubeIsLowerCase();
    YouTubeLacksMainActivity();
    YouTubeLacksLauncher();
    YouTubeLacksRecents();
  }

  /** The launcher's own line resolves to the home screen. */
  lemma LauncherLineIsHome()
    ensures NormalizeAppId(TvLauncherPackage + "/" + ".MainActivity") == HomeAppId
  {
    TvLauncherIsToken();
    LauncherLineTrimmed();
    NormalizeBareLine(TvLauncherPackage, ".MainActivity");
    TvLauncherIsHome();
  }

  lemma LauncherLineTrimmed()
    ensures var m := TvLauncherPackage + "/" + ".MainActivity"; Trim(m) == m
  {
    var m := TvLauncherPackage + "/" + ".MainActivity";
    assert m[0] == 'c' && m[|m| - 1] == 'y';
    TrimmedIsFixed(m);
  }

  /** The start of a resumed-activity line, up to the package. */
  const ResumedPrefix := "mResumedActivity: ActivityRecord{4f2 u0"

  /** A resumed-activity line naming the YouTube package resolves to that
      package, although its activity is called `MainActivity`: only the
      package is tested for launcher names. */
  lemma YouTubeLineIsYouTube()
    ensures NormalizeAppId(ResumedPrefix + " " + YouTubePackage + "/" + ".MainActivity t9}") == YouTubePackage
  {
    YouTubeIsToken();
    ResumedPrefixLacksSlash();
    YouTubeLineTrimmed();
    NormalizeFocusLine(ResumedPrefix, YouTubePackage, ".MainActivity t9}");
    YouTubeIsItself();
  }

  lemma ResumedPrefixLacksSlash()
    ensures '/' !in ResumedPrefix
  {
  }

  lemma YouTubeLineTrimmed()
    ensures var m := ResumedPrefix + " " + YouTubePackage + "/" + ".MainActivity t9}"; Trim(m) == m
  {
    var m := ResumedPrefix + " " + YouTubePackage + "/" + ".MainActivity t9}";
    assert m[0] == 'm' && m[|m| - 1] == '}';
    TrimmedIsFixed(m);
  }

  // ---------------------------------------------------------------------------
  // Media playback

  /** The id as JavaScript prints it in `includes`: a missing id is `false`. */
  function AppIdText(id: Option<string>): string {
    match id
    case None => "false"
    case Some(s) => s
  }

  /** Whether the media-session dump is trusted for the current application:
      on the home screen, when the button-session line names the application,
      or when the Alexa media runtime holds the session. */
  predicate UsesMediaSession(current: Option<string>, buttons: string) {
    current == Some(HomeAppId) || Contains(buttons, AppIdText(current))
    || Contains(buttons, "AlexaMediaPlayerRuntime")
  }

  /** The last line of a dump. */
  function LastLine(dump: string): string {
    var lines := Split(dump, '\n');
    lines[|lines| - 1]
  }

  /** One playback sample: from the media session's playback state (falling
      back from `resultState` to `PlaybackState` when the first is empty), or
      else from the last line of the audio player dump. */
  function PlaybackSample(current: Option<string>, buttons: Reply, resultState: Reply,
                          playbackState: Reply, audio: Reply): bool
  {
    if UsesMediaSession(current, buttons.message) then
      var out := if resultState.message == "" then playbackState else resultState;
      if out.message == "" then false else Contains(out.message, "state=3")
    else
      Contains(Trim(LastLine(audio.message)), "state:started")
  }

  /** A playing sample always rests on a playing marker in the output read. */
  lemma PlaybackNeedsMarker(current: Option<string>, buttons: Reply, resultState: Reply,
                            playbackState: Reply, audio: Reply)
    requires PlaybackSample(current, buttons, resultState, playbackState, audio)
    ensures UsesMediaSession(current, buttons.message) ==>
              (Contains(resultState.message, "state=3")
               || (resultState.message == "" && Contains(playbackState.message, "state=3")))
    ensures !UsesMediaSession(current, buttons.message) ==> Contains(audio.message, "state:started")
  {
    if !UsesMediaSession(current, buttons.message) {
      LastLineMarker(audio.message, "state:started");
    }
  }

  /** On the media-session route the sample is playing exactly when the
      playback state read, `resultState` or else `PlaybackState`, shows
      `state=3`. */
  lemma MediaSessionSample(current: Option<string>, buttons: Reply, resultState: Reply,
                           playbackState: Reply, audio: Reply)
    requires UsesMediaSession(current, buttons.message)
    ensures PlaybackSample(current, buttons, resultState, playbackState, audio)
            <==> (if resultState.message == "" then Contains(playbackState.message, "state=3")
                  else Contains(resultState.message, "state=3"))
  {
    assert !Contains("", "state=3");
  }

  /** The last line of `before` + newline + `last` is `last`. */
  lemma LastLineOf(before: string, last: string)
    requires '\n' !in last
    ensures LastLine(before + "\n" + last) == last
  {
    assert before + "\n" + last == before + ['\n'] + last;
    SplitToLast(before, last, '\n');
    SplitWithoutSeparator(last, '\n');
  }

  /** On the audio route only the trimmed last line counts: the sample is
      playing exactly when that line shows `state:started`, whatever the
      earlier lines hold. */
  lemma AudioReadsLastLine(current: Option<string>, buttons: Reply, resultState: Reply,
                           playbackState: Reply, ok: bool, before: string, last: string)
    requires !UsesMediaSession(current, buttons.message) && '\n' !in last
    ensures PlaybackSample(current, buttons, resultState, playbackState, Reply(ok, before + "\n" + last))
            <==> Contains(Trim(last), "state:started")
  {
    LastLineOf(before, last);
  }

  /** An audio dump of one line is that line: the sample is playing exactly
      when the trimmed line shows `state:started`. */
  lemma AudioReadsSingleLine(current: Option<string>, buttons: Reply, resultState: Reply,
                             playbackState: Reply, ok: bool, line: string)
    requires !UsesMediaSession(current, buttons.message) && '\n' !in line
    ensures PlaybackSample(current, buttons, resultState, playbackState, Reply(ok, line))
            <==> Contains(Trim(line), "state:started")
  {
    SplitWithoutSeparator(line, '\n');
  }

  /** A started player on an earlier line of the audio dump is not read as
      playing when the last line does not show it. */
  lemma AudioIgnoresEarlierLines(current: Option<string>, buttons: Reply, resultState: Reply,
                                 playbackState: Reply, ok: bool, before: string, last: string)
    requires !UsesMediaSession(current, buttons.message) && '\n' !in last
    requires !Contains(last, "state:started")
    ensures !PlaybackSample(current, buttons, resultState, playbackState, Reply(ok, before + "\n" + last))
  {
    AudioReadsLastLine(current, buttons, resultState, playbackState, ok, before, last);
    if Contains(Trim(last), "state:started") {
      ContainsThroughInfix(Trim(last), last, "state:started");
    }
  }

  /** A marker found on the trimmed last line of a dump is in the dump. */
  lemma LastLineMarker(dump: string, marker: string)
    requires Contains(Trim(LastLine(dump)), marker)
    ensures Contains(dump, marker)
  {
    var last := LastLine(dump);
    ContainsThroughInfix(Trim(last), last, marker);
    LastFieldInfix(dump, '\n');
    ContainsThroughInfix(last, dump, marker);
  }

  /** The last field of a split is an infix of the split string. */
  lemma LastFieldInfix(s: string, c: char)
    ensures var f := Split(s, c); IsInfix(f[|f| - 1], s)
  {
    var f := Split(s, c);
    var l := f[|f| - 1];
    JoinSplit(s, c);
    JoinEndsWithLast(f, [c]);
    assert s[|s| - |l|..|s| - |l| + |l|] == l;
    assert OccursAt(s, l, |s| - |l|);
  }
}
