/** The commands the session hands to the command runner, and how the
    caller-facing `sendKeycode` and `launchApp` turn free text into one. */
module Commands {
  import opened Text

  /** The status queries the session runs in the device shell. */
  datatype Query =
    | PowerState      // the display-holding line of `dumpsys power`
    | FocusedWindow   // the focused-application line of `dumpsys window windows`
    | ResumedActivity // the resumed-activity line of `dumpsys activity activities`
    | ButtonSession   // the media-button session line of `dumpsys media_session`
    | ResultState     // the `state=resultState` lines of `dumpsys media_session`
    | PlaybackState   // the `state=PlaybackState` lines of `dumpsys media_session`
    | AudioPlayers    // the last started-or-not player line of `dumpsys audio`

  /** One external command. */
  datatype Command =
    | AdbStartServer           // `adb start-server`
    | AdbConnect(ip: string)   // `adb connect <ip>`
    | AdbQuery(query: Query)   // `adb -s <ip> shell` with the query's script
    | AdbShell(script: string) // `adb -s <ip> shell <script>`
    | OsShell(script: string)  // a command for the local operating-system shell

  /** The key code the power cycle sends when the caller names none. */
  const PowerKeycode := "KEYCODE_POWER"

  /** Whether a first word routes the rest to the local shell. */
  predicate IsShellWord(word: string) {
    Lower(word) == "shell"
  }

  // ---------------------------------------------------------------------------
  // sendKeycode

  /** One `input keyevent <code>` per key code. */
  function KeyeventSegments(codes: seq<string>): seq<string> {
    seq(|codes|, i requires 0 <= i < |codes| => "input keyevent " + codes[i])
  }

  /** The key events ANDed into one device-shell script. */
  function KeyeventChain(codes: seq<string>): string {
    Join(KeyeventSegments(codes), " && ")
  }

  /** Every word followed by one space. */
  function SpacedWords(words: seq<string>): string {
    if words == [] then "" else words[0] + " " + SpacedWords(words[1..])
  }

  /** The command `sendKeycode` issues for a space-separated list of codes:
      a leading `shell` sends the other words to the local shell, otherwise
      every word becomes one key event. */
  function KeycodeCommand(keycode: string): Command {
    var codes := Split(keycode, ' ');
    if IsShellWord(codes[0]) then OsShell(SpacedWords(codes[1..]))
    else AdbShell(KeyeventChain(codes))
  }

  lemma {:induction false} SpacedWordsAppend(words: seq<string>, w: string)
    ensures SpacedWords(words + [w]) == SpacedWords(words) + w + " "
  {
    if words != [] {
      assert (words + [w])[1..] == words[1..] + [w];
      SpacedWordsAppend(words[1..], w);
    } else {
      assert [w][1..] == [];
    }
  }

  lemma {:induction false} JoinAppend(parts: seq<string>, x: string, sep: string)
    requires |parts| >= 1
    ensures Join(parts + [x], sep) == Join(parts, sep) + sep + x
  {
    if |parts| == 1 {
      assert (parts + [x])[1..] == [x];
    } else {
      assert (parts + [x])[1..] == parts[1..] + [x];
      JoinAppend(parts[1..], x, sep);
    }
  }

  /** The local-shell script of `sendKeycode`: the words after `shell`,
      appended one by one, each with a space. */
  method BuildShellScript(codes: seq<string>) returns (script: string)
    requires |codes| >= 1
    ensures script == SpacedWords(codes[1..])
  {
    script := "";
    var i := 1;
    while i < |codes|
      invariant 1 <= i <= |codes|
      invariant script == SpacedWords(codes[1..i])
    {
      assert codes[1..i + 1] == codes[1..i] + [codes[i]];
      SpacedWordsAppend(codes[1..i], codes[i]);
      script := script + codes[i] + " ";
      i := i + 1;
    }
    assert codes[1..i] == codes[1..];
  }

  /** The device-shell script of `sendKeycode`: one key event per code,
      appended one by one with ` && ` between them. */
  method BuildKeyeventScript(codes: seq<string>) returns (script: string)
    ensures script == KeyeventChain(codes)
  {
    script := "";
    var i := 0;
    while i < |codes|
      invariant 0 <= i <= |codes|
      invariant script == KeyeventChain(codes[..i]) + (if 0 < i < |codes| then " && " else "")
    {
      var segment := "input keyevent " + codes[i];
      assert KeyeventSegments(codes[..i + 1]) == KeyeventSegments(codes[..i]) + [segment];
      if i > 0 {
        JoinAppend(KeyeventSegments(codes[..i]), segment, " && ");
      }
      script := script + segment;
      if i < |codes| - 1 {
        script := script + " && ";
      }
      i := i + 1;
    }
    assert codes[..i] == codes;
  }

  /** `sendKeycode`: split the text into words and build the script for the
      route the first word picks. */
  method BuildKeycodeCommand(keycode: string) returns (cmd: Command)
    ensures cmd == KeycodeCommand(keycode)
  {
    var codes := Split(keycode, ' ');
    if IsShellWord(codes[0]) {
      var script := BuildShellScript(codes);
      cmd := OsShell(script);
    } else {
      var script := BuildKeyeventScript(codes);
      cmd := AdbShell(script);
    }
  }

  /** Words followed by a space each are their join plus one trailing space. */
  lemma {:induction false} SpacedWordsIsJoin(words: seq<string>)
    requires |words| >= 1
    ensures SpacedWords(words) == Join(words, " ") + " "
  {
    if |words| > 1 {
      SpacedWordsIsJoin(words[1..]);
    } else {
      assert words[1..] == [];
    }
  }

  /** A leading shell word (`shell` in any letter case) routes the rest to
      the local shell, with one trailing space added. */
  lemma KeycodeShellPassthrough(w: string, rest: string)
    requires IsShellWord(w) && ' ' !in w
    ensures KeycodeCommand(w + " " + rest) == OsShell(rest + " ")
  {
    assert w + " " + rest == w + [' '] + rest;
    SplitAtFirst(w, rest, ' ');
    assert Split(w + " " + rest, ' ')[1..] == Split(rest, ' ');
    SpacedWordsIsJoin(Split(rest, ' '));
    JoinSplit(rest, ' ');
  }

  /** Key codes given one space apart become one key event each, the events
      joined by ` && ` (n events, n - 1 joints). */
  lemma KeycodeBatch(codes: seq<string>)
    requires |codes| >= 1 && !IsShellWord(codes[0])
    requires forall k :: 0 <= k < |codes| ==> ' ' !in codes[k]
    ensures KeycodeCommand(Join(codes, " ")) == AdbShell(Join(KeyeventSegments(codes), " && "))
    ensures |KeyeventSegments(codes)| == |codes|
  {
    SplitJoin(codes, ' ');
  }

  // ---------------------------------------------------------------------------
  // launchApp

  /** The command `launchApp` issues: `shell ...` goes to the local shell,
      one word with a dot is a package started through `monkey`, anything
      else is a device-shell script. */
  function LaunchCommand(param: string): Command {
    var params := Split(param, ' ');
    if IsShellWord(params[0]) then OsShell(Join(params[1..], " "))
    else if |params| == 1 && Contains(param, ".") then AdbShell("monkey -p " + param + " 1")
    else AdbShell(param)
  }

  /** A leading shell word (`shell` in any letter case) routes the rest,
      unchanged, to the local shell. */
  lemma LaunchShellPassthrough(w: string, rest: string)
    requires IsShellWord(w) && ' ' !in w
    ensures LaunchCommand(w + " " + rest) == OsShell(rest)
  {
    assert w + " " + rest == w + [' '] + rest;
    SplitAtFirst(w, rest, ' ');
    assert Split(w + " " + rest, ' ')[1..] == Split(rest, ' ');
    JoinSplit(rest, ' ');
  }

  /** A single word with a dot starts that package. */
  lemma LaunchPackage(package: string)
    requires ' ' !in package && Contains(package, ".")
    ensures LaunchCommand(package) == AdbShell("monkey -p " + package + " 1")
  {
    SplitWithoutSeparator(package, ' ');
    ContainsIff(package, ".");
    var i: nat :| OccursAt(package, ".", i);
    assert package[i] == '.';
    assert Lower(package)[i] == '.';
  }

  /** Anything else is sent to the device shell as it is. */
  lemma LaunchVerbatim(param: string)
    requires !IsShellWord(Split(param, ' ')[0])
    requires ' ' in param || !Contains(param, ".")
    ensures LaunchCommand(param) == AdbShell(param)
  {
    if ' ' in param {
      SplitAtSeparator(param, ' ');
    }
  }
}
