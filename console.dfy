/** Core/Console.cs: the in-game debug console. It keeps the log lines it has been sent,
    the commands entered so far (newest last, none twice) and the prompt being edited,
    and reacts to one frame's keys at a time. A command either replies in the log or
    loads a scene or changes a setting. */
module DebugConsole {
  import opened Common
  import opened Raylib
  import Gui
  import RaylibHelpers
  import Configuration
  import ConfigurationUpdate
  import opened SceneRules
  import opened Values
  import opened SceneCreation
  import Scenes

  // ---------------------------------------------------------------- history

  /** List.Remove: drops the first occurrence of x, if any. */
  function RemoveFirst(s: seq<string>, x: string): (r: seq<string>)
    ensures x !in s ==> r == s
    ensures x in s ==> |r| == |s| - 1
    ensures forall y :: y in r ==> y in s
  {
    if s == [] then []
    else if s[0] == x then s[1..]
    else [s[0]] + RemoveFirst(s[1..], x)
  }

  /** A list without repetitions loses exactly x when its first occurrence is removed. */
  lemma {:induction false} RemoveFirstNoDup(s: seq<string>, x: string)
    requires NoDup(s)
    ensures NoDup(RemoveFirst(s, x))
    ensures x !in RemoveFirst(s, x)
    ensures forall y :: y in s && y != x ==> y in RemoveFirst(s, x)
  {
    if s != [] {
      assert NoDup(s[1..]) by {
        forall i, j | 0 <= i < j < |s[1..]| ensures s[1..][i] != s[1..][j] {
          assert s[1..][i] == s[i + 1] && s[1..][j] == s[j + 1];
        }
      }
      if s[0] == x {
        assert forall y :: y in s && y != x ==> y in s[1..];
        assert x !in s[1..] by {
          forall i | 0 <= i < |s[1..]| ensures s[1..][i] != x {
            assert s[1..][i] == s[i + 1];
          }
        }
      } else {
        RemoveFirstNoDup(s[1..], x);
        var t := RemoveFirst(s[1..], x);
        assert s[0] !in s[1..] by {
          forall i | 0 <= i < |s[1..]| ensures s[1..][i] != s[0] {
            assert s[1..][i] == s[i + 1];
          }
        }
        assert s[0] !in t;
        NoDupCons(s[0], t);
        assert forall y :: y in s && y != x && y != s[0] ==> y in s[1..];
      }
    }
  }

  lemma NoDupCons(x: string, t: seq<string>)
    requires NoDup(t) && x !in t
    ensures NoDup([x] + t)
  {
    var r := [x] + t;
    forall i, j | 0 <= i < j < |r| ensures r[i] != r[j] {
      assert r[j] == t[j - 1];
      if i > 0 {
        assert r[i] == t[i - 1];
      }
    }
  }

  /** The history after a command: its earlier occurrence removed, the command appended. */
  function Remembered(history: seq<string>, command: string): seq<string> {
    RemoveFirst(history, command) + [command]
  }

  /** A processed command is the newest entry; the history stays free of repetitions,
      holds the earlier entries and the command and nothing else, and grows only for a
      new command. Remembering the same command again changes nothing. */
  lemma RememberedSpec(history: seq<string>, command: string)
    requires NoDup(history)
    ensures var r := Remembered(history, command);
      && NoDup(r) && r[|r| - 1] == command
      && (forall y :: y in r <==> y in history || y == command)
      && |r| == (if command in history then |history| else |history| + 1)
      && Remembered(r, command) == r
  {
    var r := Remembered(history, command);
    RemoveFirstNoDup(history, command);
    NoDupSnoc(RemoveFirst(history, command), command);
    RemoveFirstNoDup(r, command);
    assert RemoveFirst(r, command) == RemoveFirst(history, command) by {
      RemoveLast(RemoveFirst(history, command), command);
    }
  }

  /** Removing an element that only occurs at the end. */
  lemma {:induction false} RemoveLast(s: seq<string>, x: string)
    requires x !in s
    ensures RemoveFirst(s + [x], x) == s
  {
    if s != [] {
      assert (s + [x])[1..] == s[1..] + [x];
      RemoveLast(s[1..], x);
    }
  }

  // ---------------------------------------------------------------- the prompt

  /** One frame's input: the keys pressed this frame, the character typed (0 for none),
      a left click, and whether the mouse is over the prompt (a floating-point hit test
      against the prompt's rectangle). */
  datatype Keys = Keys(f1: bool, up: bool, down: bool, backspace: bool, enter: bool, typed: char, click: bool, hover: bool)

  /** The prompt's state: input focus, mouse hover, the history position (0 = not
      browsing, k = the k-th newest entry) and the text being edited. */
  datatype Prompt = Prompt(active: bool, hover: bool, index: int, text: string)

  /** F1: focus the prompt, drop the hover and stop browsing the history. */
  function Toggled(p: Prompt): Prompt {
    p.(active := true, hover := false, index := 0)
  }

  /** Up: one entry older, stopping at the oldest of `count`. */
  function Older(count: nat, index: int): int {
    if index + 1 > count then count else index + 1
  }

  /** Down: one entry newer, stopping at the newest. */
  function Newer(index: int): int {
    if index - 1 < 1 then 1 else index - 1
  }

  /** history[^index]: the index-th newest entry. */
  function Recalled(history: seq<string>, index: int): string
    requires 1 <= index <= |history|
  {
    history[|history| - index]
  }

  /** Backspace: the text without its last character. */
  function Erased(text: string): string {
    if |text| > 0 then text[..|text| - 1] else text
  }

  /** The characters the prompt accepts. */
  predicate Typeable(c: char) {
    IsAsciiLetterOrDigit(c) || IsWhiteSpace(c) || c == ':' || c == '.'
  }

  function Typed(text: string, c: char): string {
    if Typeable(c) then text + [c] else text
  }

  /** What a frame does to a shown console: a new prompt, or a command to process. */
  datatype Outcome = Edit(prompt: Prompt) | Submit(command: string)

  /** The key handling of a shown console, whose prompt already has this frame's hover:
      the first test that holds decides. */
  function HandleKeys(p: Prompt, history: seq<string>, keys: Keys): Outcome
    requires 0 <= p.index <= |history|
  {
    if !p.active then Edit(p.(active := p.hover && keys.click))
    else if !p.hover && keys.click then Edit(p.(active := false))
    else if keys.up then
      if history == [] then Edit(p)
      else var i := Older(|history|, p.index); Edit(p.(index := i, text := Recalled(history, i)))
    else if keys.down then
      if history == [] then Edit(p)
      else var i := Newer(p.index); Edit(p.(index := i, text := Recalled(history, i)))
    else if keys.backspace then Edit(p.(text := Erased(p.text)))
    else if keys.enter then
      if IsBlank(p.text) then Edit(p.(text := [])) else Submit(Trim(p.text))
    else Edit(p.(text := Typed(p.text, keys.typed)))
  }

  /** The history position stays within the history, so history[^index] never throws;
      a submitted command is the trimmed prompt text and is never blank. */
  lemma HandleKeysInRange(p: Prompt, history: seq<string>, keys: Keys)
    requires 0 <= p.index <= |history|
    ensures match HandleKeys(p, history, keys)
      case Edit(q) => 0 <= q.index <= |history|
      case Submit(c) => c == Trim(p.text) && c != [] && !IsBlank(c)
  {
    TrimBlank(p.text);
  }

  /** Up then Down comes back to the same entry, and so does Down then Up. */
  lemma UpDownRoundTrip(count: nat, index: int)
    ensures 1 <= index < count ==> Newer(Older(count, index)) == index
    ensures 2 <= index <= count ==> Older(count, Newer(index)) == index
  {
  }

  /** Up pressed n times from the start reaches the n-th newest entry and then stays at
      the oldest. */
  function Ups(count: nat, index: int, n: nat): int
    decreases n
  {
    if n == 0 then index else Ups(count, Older(count, index), n - 1)
  }

  lemma {:induction false} UpsReachOldest(count: nat, index: int, n: nat)
    requires 0 <= index <= count
    ensures Ups(count, index, n) == if index + n > count then count else index + n
    decreases n
  {
    if n > 0 {
      UpsReachOldest(count, Older(count, index), n - 1);
    }
  }

  /** Down from the start or from the newest entry shows the newest entry. */
  lemma DownShowsNewest(history: seq<string>, index: int)
    requires history != [] && 0 <= index <= 1
    ensures Newer(index) == 1 && Recalled(history, Newer(index)) == history[|history| - 1]
  {
  }

  /** Backspace undoes an accepted character; a refused character leaves the text alone;
      Backspace on an empty text does nothing. */
  lemma TypedErased(text: string, c: char)
    ensures Typeable(c) ==> Erased(Typed(text, c)) == text
    ensures Typed(text, c) == text <==> !Typeable(c)
    ensures Erased([]) == []
  {
    if Typeable(c) {
      assert |Typed(text, c)| == |text| + 1;
    }
  }

  /** Enter always clears the prompt, except that a text that is not blank is processed
      first, trimmed. */
  lemma EnterClearsOrSubmits(p: Prompt, history: seq<string>, keys: Keys)
    requires 0 <= p.index <= |history|
    requires p.active && !(!p.hover && keys.click) && !keys.up && !keys.down && !keys.backspace && keys.enter
    ensures IsBlank(p.text) ==> HandleKeys(p, history, keys) == Edit(p.(text := []))
    ensures !IsBlank(p.text) ==> HandleKeys(p, history, keys) == Submit(Trim(p.text)) && !IsBlank(Trim(p.text))
  {
    TrimBlank(p.text);
  }

  // ---------------------------------------------------------------- commands

  datatype Command = Help | LoadScene(scene: string) | LoadSyntax | SetSetting(path: string, value: string) | SetSyntax | Unknown

  /** The command switch: the first space-separated word, in any case, picks the command;
      load needs a second word and set a second and a third. */
  function Parse(command: string): Command {
    var args := Split(command, ' ');
    var keyword := ToLower(args[0]);
    if keyword == "help" then Help
    else if keyword == "load" then (if |args| < 2 then LoadSyntax else LoadScene(args[1]))
    else if keyword == "set" then (if |args| < 3 then SetSyntax else SetSetting(args[1], args[2]))
    else Unknown
  }

  /** The keyword is compared without case: any spelling of "LoAd x" loads scene x. */
  lemma ParseIgnoresCase(a: string, b: string)
    requires Split(a, ' ')[1..] == Split(b, ' ')[1..]
    requires ToLower(Split(a, ' ')[0]) == ToLower(Split(b, ' ')[0])
    ensures Parse(a) == Parse(b)
  {
    var x, y := Split(a, ' '), Split(b, ' ');
    assert |x| == |x[1..]| + 1 && |y| == |y[1..]| + 1;
    if |x| >= 2 {
      assert x[1] == x[1..][0] && y[1] == y[1..][0];
    }
    if |x| >= 3 {
      assert x[2] == x[1..][1] && y[2] == y[1..][1];
    }
  }

  /** Every line the console writes starts with its "[Console]: " tag. */
  function Tagged(rest: string): (r: string)
    ensures |r| > 0 && !IsWhiteSpace(r[0])
  {
    "[Console]: " + rest
  }

  const LoadUsage := Tagged("Wrong command syntax! Use " + "\"load <scene>\"")
  const SetUsage := Tagged("Wrong command syntax! Use " + "\"set <setting> <value>\"")

  function NotFound(command: string): string {
    Tagged("Command not found \"" + command + "\"!")
  }

  function SetMessage(path: string, value: string): string {
    Tagged(path + " = " + value)
  }

  /** What help, a wrong syntax or an unknown command logs. */
  function Reply(c: Command, command: string): (r: seq<GpuCall>)
    requires !c.LoadScene? && !c.SetSetting?
    ensures |r| == (if c.Help? then 3 else 1)
    ensures forall k :: 0 <= k < |r| ==> r[k].TraceLog? && (r[k].level == LogInfo <==> c.Help?)
    ensures forall k :: 0 <= k < |r| ==> |r[k].message| > 0 && !IsWhiteSpace(r[k].message[0])
  {
    match c
    case Help => [TraceLog(LogInfo, Tagged("Available commands: ")),
                  TraceLog(LogInfo, Tagged("load <scene> - loads scene by its name")),
                  TraceLog(LogInfo, Tagged("set <setting> <value> - sets setting value"))]
    case LoadSyntax => [TraceLog(LogWarning, LoadUsage)]
    case SetSyntax => [TraceLog(LogWarning, SetUsage)]
    case Unknown => [TraceLog(LogWarning, NotFound(command))]
  }

  /** What the commands reach outside the console: the main scene and how a scene is
      read (Scene.Load), the configuration and how its texts convert (Configuration.Set
      and Update), and the monitor size the screen-size rule falls back to. */
  datatype Host = Host(holder: SceneHolder, cfg: Configuration.Config,
                       metadataOf: string -> Option<SceneMetadata>, fileExists: string -> bool,
                       pipelineShader: Option<Shader>, conv: Converter,
                       parsers: Configuration.Parsers, scaled: (int, int))

  /** The main scene is valid, and every metadata file that reads is well formed. */
  ghost predicate Ready(host: Host)
    reads host.holder, host.holder.main, if host.holder.main == null then {} else host.holder.main.worlds
  {
    && host.holder.Valid()
    && forall path :: host.metadataOf(path).Some? ==> WellFormed(host.metadataOf(path).value)
  }

  /** What a command can change outside the console: the configuration, the main scene
      and the calls made so far. */
  datatype HostState = HostState(instance: Option<Configuration.Store>, main: Scenes.Scene?, calls: seq<GpuCall>)

  ghost function StateOf(host: Host, dev: Device): HostState
    reads host.cfg, host.holder, dev
  {
    HostState(host.cfg.instance, host.holder.main, dev.calls)
  }

  /** The effect of command `c` (typed as `command`) from `before` to `after`: help, a
      wrong syntax and an unknown command only log their reply; set stores the value under
      the setting's key and, unless it throws, ends with its confirmation; load without
      metadata logs one error and keeps the scene, and with metadata keeps the scene when
      the constructor throws and otherwise installs a scene at Data/Lvl/<name>; only load
      replaces the scene, only set changes the configuration, and calls are only added. */
  ghost predicate Effect(c: Command, command: string, thrown: bool, before: HostState, after: HostState,
                         metadataOf: string -> Option<SceneMetadata>)
  {
    && (!c.LoadScene? && !c.SetSetting? ==> !thrown && after.calls == before.calls + Reply(c, command))
    && (c.SetSetting? && !thrown ==> |after.calls| > 0 && after.calls[|after.calls| - 1] == TraceLog(LogInfo, SetMessage(c.path, c.value)))
    && (c.SetSetting? && before.instance.Some? ==>
          after.instance == Some(before.instance.value[Configuration.Key(c.path) := c.value]))
    && (c.SetSetting? && before.instance.None? ==> after.instance.None?)
    && (!c.LoadScene? ==> after.main == before.main)
    && (!c.SetSetting? ==> after.instance == before.instance)
    && (c.LoadScene? && metadataOf(MetadataPath(ScenePath(c.scene))).None? ==>
          && !thrown && after.main == before.main
          && after.calls == before.calls + [TraceLog(LogError, MetadataMessage(c.scene))])
    && (c.LoadScene? && metadataOf(MetadataPath(ScenePath(c.scene))).Some? ==>
          && (thrown ==> after.main == before.main)
          && (!thrown ==> after.main != null && after.main.basePath == ScenePath(c.scene)))
    && before.calls <= after.calls
  }

  /** set <setting> <value>: Configuration.Set, then Configuration.Update, then the
      confirmation; an exception from either step escapes before the confirmation. */
  method RunSet(path: string, value: string, host: Host, dev: Device) returns (thrown: bool)
    requires Ready(host)
    modifies dev, host.cfg, ConfigurationUpdate.MainTextures(host.holder)
    ensures Ready(host)
    ensures old(host.cfg.instance).Some? ==> host.cfg.instance == Some(old(host.cfg.instance).value[Configuration.Key(path) := value])
    ensures old(host.cfg.instance).None? ==> host.cfg.instance == None
    ensures host.holder.main == old(host.holder.main)
    ensures !thrown ==> |dev.calls| > 0 && dev.calls[|dev.calls| - 1] == TraceLog(LogInfo, SetMessage(path, value))
    ensures dev.Env() == old(dev.Env())
    ensures old(dev.calls) <= dev.calls
  {
    thrown := host.cfg.Set(path, value, host.parsers);
    if !thrown {
      thrown := Reapply(path, host, dev);
      if !thrown {
        dev.Log(LogInfo, SetMessage(path, value));
      }
    }
  }

  /** Configuration.Update for the setting just changed; the GPU calls it makes are
      stated by ConfigurationUpdate.Update. */
  method Reapply(path: string, host: Host, dev: Device) returns (thrown: bool)
    requires Ready(host)
    modifies dev, ConfigurationUpdate.MainTextures(host.holder)
    ensures Ready(host) && dev.Env() == old(dev.Env())
    ensures old(dev.calls) <= dev.calls
  {
    thrown := ConfigurationUpdate.Update(host.cfg, path, host.holder, host.scaled, host.parsers.float, dev);
  }

  /** load <scene>: Scene.Load with what the host provides. */
  method RunLoad(scene: string, host: Host, dev: Device) returns (thrown: bool)
    requires Ready(host)
    modifies dev, host.holder, host.holder.main, if host.holder.main == null then {} else host.holder.main.worlds
    ensures Ready(host) && host.cfg.instance == old(host.cfg.instance)
    ensures host.metadataOf(MetadataPath(ScenePath(scene))).None? ==>
      && !thrown && host.holder.main == old(host.holder.main)
      && dev.calls == old(dev.calls) + [TraceLog(LogError, MetadataMessage(scene))]
    ensures host.metadataOf(MetadataPath(ScenePath(scene))).Some? ==>
      && (thrown ==> host.holder.main == old(host.holder.main))
      && (!thrown ==> host.holder.main != null && fresh(host.holder.main) && host.holder.main.basePath == ScenePath(scene))
    ensures dev.Env() == old(dev.Env())
    ensures old(dev.calls) <= dev.calls
  {
    ghost var lctx, ectx, declared;
    thrown, lctx, ectx, declared := Load(host.holder, scene, host.metadataOf, host.fileExists, host.cfg, host.pipelineShader, host.conv, dev);
  }

  /** The command switch of ProcessCommand. */
  method Perform(c: Command, command: string, host: Host, dev: Device) returns (thrown: bool)
    requires Ready(host)
    modifies dev, host.cfg, ConfigurationUpdate.MainTextures(host.holder),
      host.holder, host.holder.main, if host.holder.main == null then {} else host.holder.main.worlds
    ensures Ready(host)
    ensures Effect(c, command, thrown, old(StateOf(host, dev)), StateOf(host, dev), host.metadataOf)
    ensures c.LoadScene? && host.metadataOf(MetadataPath(ScenePath(c.scene))).Some? && !thrown ==> fresh(host.holder.main)
    ensures dev.Env() == old(dev.Env())
  {
    match c
    case LoadScene(scene) =>
      thrown := RunLoad(scene, host, dev);
    case SetSetting(path, value) =>
      thrown := RunSet(path, value, host, dev);
    case _ =>
      Answer(c, command, dev);
      thrown := false;
  }

  /** The commands that only log: help, a wrong syntax, an unknown command. */
  method Answer(c: Command, command: string, dev: Device)
    requires !c.LoadScene? && !c.SetSetting?
    modifies dev
    ensures dev.calls == old(dev.calls) + Reply(c, command)
    ensures dev.Env() == old(dev.Env())
  {
    match c
    case Help =>
      dev.Log(LogInfo, Tagged("Available commands: "));
      dev.Log(LogInfo, Tagged("load <scene> - loads scene by its name"));
      dev.Log(LogInfo, Tagged("set <setting> <value> - sets setting value"));
    case LoadSyntax =>
      dev.Log(LogWarning, LoadUsage);
    case SetSyntax =>
      dev.Log(LogWarning, SetUsage);
    case Unknown =>
      dev.Log(LogWarning, NotFound(command));
  }

  // ---------------------------------------------------------------- the log

  /** The level prefix of a log line; none for Info (or any level without a name). */
  function Prefix(level: LogLevel): (r: string)
    ensures r == [] <==> level == LogInfo || level == LogAll || level == LogNone
    ensures r != [] ==> r[0] == '[' && r[|r| - 1] == ' '
  {
    match level
    case LogTrace => "[Trace] "
    case LogDebug => "[Debug] "
    case LogWarning => "[Warning] "
    case LogError => "[Error] "
    case LogFatal => "[Fatal] "
    case _ => ""
  }

  /** The line LogMessage records: the time stamp in brackets, the prefix, the message. */
  function LogLine(stamp: string, level: LogLevel, message: string): string {
    "[" + stamp + "] " + Prefix(level) + message
  }

  /** A log line keeps the message whole at its end and shows the stamp at its start. */
  lemma LogLineParts(stamp: string, level: LogLevel, message: string)
    ensures var line := LogLine(stamp, level, message);
      && line[..|stamp| + 3] == "[" + stamp + "] "
      && line[|line| - |message|..] == message
      && |line| == |stamp| + 3 + |Prefix(level)| + |message|
  {
    var line := LogLine(stamp, level, message);
    assert line == ("[" + stamp + "] ") + (Prefix(level) + message);
  }

  const Rule := "====================================================================="

  /** The banner the constructor writes: a blank line, then the title between two rules. */
  function Banner(stamp: string): seq<string> {
    ["", Rule, " DeadGalaxy - logs - " + stamp, Rule]
  }

  /** The callback the console registers for raylib's log. */
  const ConsoleCallback: RaylibHelpers.Callback := 1

  /** What one call adds to the console's log: a TraceLog that raylib reports reaches
      RaylibHelpers.LogMessage, which forwards it to the hook's callback; when that is
      the console's LogMessage, a message that is not blank becomes one line stamped
      `stamp`. */
  function EchoOf(c: GpuCall, hook: Option<RaylibHelpers.Callback>, stamp: string): seq<string> {
    if !c.TraceLog? || !Reported(c.level) then []
    else
      var forwarded := RaylibHelpers.Forward(hook, c.level, c.message);
      if forwarded.Some? && forwarded.value.0 == ConsoleCallback && !IsNullOrWhiteSpace(Some(forwarded.value.2))
      then [LogLine(stamp, forwarded.value.1, forwarded.value.2)]
      else []
  }

  /** The lines the console's log gains from the calls `calls`, in order. */
  function Echoed(calls: seq<GpuCall>, hook: Option<RaylibHelpers.Callback>, stamp: string): (r: seq<string>)
    ensures |r| <= |calls|
    ensures hook != Some(ConsoleCallback) ==> r == []
  {
    if calls == [] then []
    else Echoed(calls[..|calls| - 1], hook, stamp) + EchoOf(calls[|calls| - 1], hook, stamp)
  }

  /** Echoed follows the calls one at a time. */
  lemma EchoedStep(calls: seq<GpuCall>, i: nat, hook: Option<RaylibHelpers.Callback>, stamp: string)
    requires i < |calls|
    ensures Echoed(calls[..i + 1], hook, stamp) == Echoed(calls[..i], hook, stamp) + EchoOf(calls[i], hook, stamp)
  {
    assert calls[..i + 1][..i] == calls[..i];
  }

  /** The log gains the lines of two runs of calls one after the other. */
  lemma {:induction false} EchoedAppend(a: seq<GpuCall>, b: seq<GpuCall>, hook: Option<RaylibHelpers.Callback>, stamp: string)
    ensures Echoed(a + b, hook, stamp) == Echoed(a, hook, stamp) + Echoed(b, hook, stamp)
    decreases |b|
  {
    if b == [] {
      assert a + b == a;
    } else {
      var n := |b| - 1;
      EchoedAppend(a, b[..n], hook, stamp);
      EchoedLast(a, b, hook, stamp);
      EchoedLast([], b, hook, stamp);
      ConcatAssoc(Echoed(a, hook, stamp), Echoed(b[..n], hook, stamp), EchoOf(b[n], hook, stamp));
    }
  }

  lemma EchoedLast(a: seq<GpuCall>, b: seq<GpuCall>, hook: Option<RaylibHelpers.Callback>, stamp: string)
    requires b != []
    ensures Echoed(a + b, hook, stamp) == Echoed(a + b[..|b| - 1], hook, stamp) + EchoOf(b[|b| - 1], hook, stamp)
  {
    var c := a + b;
    DropLast(a, b);
    assert Echoed(c, hook, stamp) == Echoed(c[..|c| - 1], hook, stamp) + EchoOf(c[|c| - 1], hook, stamp);
  }

  lemma DropLast(a: seq<GpuCall>, b: seq<GpuCall>)
    requires b != []
    ensures (a + b)[..|a + b| - 1] == a + b[..|b| - 1] && (a + b)[|a + b| - 1] == b[|b| - 1]
  {
    var c := a + b;
    forall k | 0 <= k < |c| - 1
      ensures c[k] == (a + b[..|b| - 1])[k]
    {
    }
    assert c[..|c| - 1] == a + b[..|b| - 1];
  }

  lemma ConcatAssoc(x: seq<string>, y: seq<string>, z: seq<string>)
    ensures x + y + z == x + (y + z)
  {
  }

  /** With the console's LogMessage registered, a reported TraceLog whose message is not
      blank adds its line. */
  lemma EchoOfShown(level: LogLevel, message: string, stamp: string)
    requires Reported(level) && !IsBlank(message)
    ensures EchoOf(TraceLog(level, message), Some(ConsoleCallback), stamp) == [LogLine(stamp, level, message)]
  {
    var forwarded := RaylibHelpers.Forward(Some(ConsoleCallback), level, message);
    assert forwarded == Some((ConsoleCallback, level, message));
  }

  /** With the console's LogMessage registered, every reported TraceLog whose message
      is not blank shows up in the console's log, one line each, in order, with its
      level's prefix. */
  lemma {:induction false} EchoedAll(calls: seq<GpuCall>, stamp: string)
    requires forall k :: 0 <= k < |calls| ==> calls[k].TraceLog? && Reported(calls[k].level) && !IsBlank(calls[k].message)
    ensures var r := Echoed(calls, Some(ConsoleCallback), stamp);
      |r| == |calls| && forall k :: 0 <= k < |calls| ==> r[k] == LogLine(stamp, calls[k].level, calls[k].message)
  {
    if calls != [] {
      var n := |calls| - 1;
      var front := calls[..n];
      EchoedAll(front, stamp);
      EchoedShownLast(calls, stamp);
      var lines := Echoed(front, Some(ConsoleCallback), stamp);
      var r := Echoed(calls, Some(ConsoleCallback), stamp);
      assert |lines| == n && r == lines + [LogLine(stamp, calls[n].level, calls[n].message)];
      forall k | 0 <= k < |calls|
        ensures r[k] == LogLine(stamp, calls[k].level, calls[k].message)
      {
        if k < n {
          assert r[k] == lines[k] && front[k] == calls[k];
        } else {
          assert r[k] == (lines + [LogLine(stamp, calls[n].level, calls[n].message)])[n];
        }
      }
    }
  }

  lemma EchoedShownLast(calls: seq<GpuCall>, stamp: string)
    requires calls != [] && calls[|calls| - 1].TraceLog?
    requires Reported(calls[|calls| - 1].level) && !IsBlank(calls[|calls| - 1].message)
    ensures var n := |calls| - 1;
      Echoed(calls, Some(ConsoleCallback), stamp)
      == Echoed(calls[..n], Some(ConsoleCallback), stamp) + [LogLine(stamp, calls[n].level, calls[n].message)]
  {
    var n := |calls| - 1;
    EchoOfShown(calls[n].level, calls[n].message, stamp);
    assert calls[n] == TraceLog(calls[n].level, calls[n].message);
  }

  /** The replies to help, a wrong syntax and an unknown command all reach the console's
      log. */
  lemma ReplyEchoed(c: Command, command: string, stamp: string)
    requires !c.LoadScene? && !c.SetSetting?
    ensures var r := Reply(c, command); var lines := Echoed(r, Some(ConsoleCallback), stamp);
      |lines| == |r| && forall k :: 0 <= k < |r| ==> lines[k] == LogLine(stamp, r[k].level, r[k].message)
  {
    var r := Reply(c, command);
    forall k | 0 <= k < |r|
      ensures Reported(r[k].level) && !IsBlank(r[k].message)
    {
      assert !IsWhiteSpace(r[k].message[0]);
    }
    EchoedAll(r, stamp);
  }

  // ---------------------------------------------------------------- drawing

  const Background := Color(0, 0, 0, 200)
  const InputIdle := Color(50, 50, 50, 200)
  const InputHover := Color(75, 75, 75, 200)
  const InputActive := Color(100, 100, 100, 200)

  /** The prompt's colour: focused, else hovered, else idle. */
  function InputColor(active: bool, hover: bool): Color {
    if active then InputActive else if hover then InputHover else InputIdle
  }

  /** _output.TakeLast(8): the newest eight lines, oldest first. */
  function Recent(output: seq<string>): (r: seq<string>)
    ensures |r| == (if |output| < 8 then |output| else 8)
    ensures r == output[|output| - |r|..]
  {
    if |output| < 8 then output else output[|output| - 8..]
  }

  /** The top of log line i: 16 pixels down, then 24 per line. */
  function LineTop(i: int): int {
    16 + i * 24
  }

  /** The log lines drawn one under the other, the first n of them. */
  function LineCalls(lines: seq<string>, n: nat): (r: seq<GpuCall>)
    requires n <= |lines|
    ensures |r| == n
  {
    seq(n, i requires 0 <= i < n => DrawText(lines[i], 16, LineTop(i), 20, White))
  }

  /** The frame of the console: the backdrop, the prompt box and the prompt text. */
  function FrameCalls(width: int, height: int, active: bool, hover: bool, caption: string): seq<GpuCall> {
    var top := Configuration.CsDiv(height, 4) - 32;
    [DrawRectangle(0, 0, width, 270, Background),
     DrawRectangle(8, top - 16, width - 16, 32, InputColor(active, hover)),
     DrawText(caption, 16, top - 10, 20, White)]
  }

  /** The draws of Render: the frame, then the newest eight log lines. */
  function ConsoleCalls(width: int, height: int, active: bool, hover: bool, caption: string, output: seq<string>): seq<GpuCall> {
    FrameCalls(width, height, active, hover, caption) + LineCalls(Recent(output), |Recent(output)|)
  }

  /** The console shows at most eight log lines, the newest ones (Recent), oldest at
      the top: after the three draws of the frame, one text draw per line, 24 pixels
      apart. */
  lemma ConsoleShowsNewest(width: int, height: int, active: bool, hover: bool, caption: string, output: seq<string>)
    ensures var r := ConsoleCalls(width, height, active, hover, caption, output);
      var lines := Recent(output);
      && |r| == 3 + |lines| && |r| <= 11
      && r[0].DrawRectangle? && r[1].DrawRectangle? && r[1].color == InputColor(active, hover) && r[2].DrawText?
      && forall k :: 0 <= k < |lines| ==> r[3 + k] == DrawText(lines[k], 16, LineTop(k), 20, White)
  {
    var frame := FrameCalls(width, height, active, hover, caption);
    var lines := Recent(output);
    var body := LineCalls(lines, |lines|);
    FrameShape(width, height, active, hover, caption);
    ConcatAt(frame, body);
  }

  /** The frame is two rectangles, the prompt box in its state's colour, then the
      prompt text. */
  lemma FrameShape(width: int, height: int, active: bool, hover: bool, caption: string)
    ensures var f := FrameCalls(width, height, active, hover, caption);
      |f| == 3 && f[0].DrawRectangle? && f[1].DrawRectangle? && f[1].color == InputColor(active, hover) && f[2].DrawText?
  {
  }

  lemma ConcatAt<T>(a: seq<T>, b: seq<T>)
    ensures |a + b| == |a| + |b|
    ensures forall k :: 0 <= k < |a| ==> (a + b)[k] == a[k]
    ensures forall k :: 0 <= k < |b| ==> (a + b)[|a| + k] == b[k]
  {
  }

  /** Drawing rectangles and text leaves the observable state as it was. */
  lemma StepDraws(s: GpuState, c: GpuCall)
    requires c.DrawRectangle? || c.DrawText?
    ensures Step(s, c) == s
  {
  }

  /** Issues rectangle and text draws in order. */
  method Draw(draws: seq<GpuCall>, dev: Device)
    requires forall k :: 0 <= k < |draws| ==> draws[k].DrawRectangle? || draws[k].DrawText?
    modifies dev
    ensures dev.calls == old(dev.calls) + draws
    ensures dev.state == old(dev.state) && dev.nextHandle == old(dev.nextHandle) && dev.Env() == old(dev.Env())
  {
    for i := 0 to |draws|
      invariant dev.calls == old(dev.calls) + draws[..i]
      invariant dev.state == old(dev.state) && dev.nextHandle == old(dev.nextHandle) && dev.Env() == old(dev.Env())
    {
      StepDraws(dev.state, draws[i]);
      dev.Issue(draws[i]);
      assert draws[..i + 1] == draws[..i] + [draws[i]];
      AppendAssoc(old(dev.calls), draws[..i], [draws[i]]);
    }
    assert draws[..|draws|] == draws;
  }

  // ---------------------------------------------------------------- the console

  class Console {
    /** The lines logged so far (the file copy of each line is not modelled). */
    var output: seq<string>
    var history: seq<string>
    var historyIndex: int
    var inputActive: bool
    var inputHover: bool
    var inputText: string
    var shown: bool

    /** The history has no repetitions and the position is within it. */
    ghost predicate Valid()
      reads this
    {
      NoDup(history) && 0 <= historyIndex <= |history|
    }

    function PromptOf(): Prompt
      reads this
    {
      Prompt(inputActive, inputHover, historyIndex, inputText)
    }

    /** Console(): hidden, with an empty prompt and history, the banner logged with the
        time `stamp`, and LogMessage registered as raylib's log callback. */
    constructor (stamp: string, hook: RaylibHelpers.TraceLogHook, dev: Device)
      modifies hook, dev
      ensures Valid() && !shown && PromptOf() == Prompt(false, false, 0, []) && history == []
      ensures output == Banner(stamp)
      ensures hook.callback == Some(ConsoleCallback)
      ensures dev.calls == old(dev.calls) + [GpuCall.SetTraceLogCallback] && dev.state == old(dev.state)
      ensures dev.Env() == old(dev.Env()) && dev.nextHandle == old(dev.nextHandle)
    {
      output := Banner(stamp);
      history := [];
      historyIndex := 0;
      inputActive := false;
      inputHover := false;
      inputText := [];
      shown := false;
      new;
      hook.SetTraceLogCallback(ConsoleCallback, dev);
    }

    /** Render: the backdrop, the prompt box in the prompt's colour, the prompt text
        `caption` and the newest eight log lines. `caption` is the input text as drawn:
        shortened from the left until MeasureText fits it to the window, with the caret
        on alternate timer ticks; neither is modelled. */
    method Render(caption: string, dev: Device)
      modifies dev
      ensures dev.calls == old(dev.calls)
        + ConsoleCalls(old(dev.screenWidth), old(dev.screenHeight), inputActive, inputHover, caption, output)
      ensures dev.state == old(dev.state) && dev.nextHandle == old(dev.nextHandle) && dev.Env() == old(dev.Env())
    {
      var frame := FrameCalls(dev.screenWidth, dev.screenHeight, inputActive, inputHover, caption);
      var lines := Recent(output);
      Draw(frame, dev);
      Draw(LineCalls(lines, |lines|), dev);
      AppendAssoc(old(dev.calls), frame, LineCalls(lines, |lines|));
    }

    /** LogMessage: a blank or missing message is dropped; otherwise one line is added. */
    method LogMessage(level: LogLevel, message: Option<string>, stamp: string)
      modifies this`output
      ensures IsNullOrWhiteSpace(message) ==> output == old(output)
      ensures !IsNullOrWhiteSpace(message) ==> output == old(output) + [LogLine(stamp, level, message.value)]
    {
      if IsNullOrWhiteSpace(message) {
        return;
      }
      var prefix := Prefix(level);
      output := output + ["[" + stamp + "] " + prefix + message.value];
    }

    /** The console's side of raylib's log for a run of calls: each call raylib reports
        is forwarded through the hook, and LogMessage runs for the ones that reach this
        console. */
    method Echo(calls: seq<GpuCall>, hook: Option<RaylibHelpers.Callback>, stamp: string)
      modifies this`output
      ensures output == old(output) + Echoed(calls, hook, stamp)
    {
      var i := 0;
      while i < |calls|
        invariant 0 <= i <= |calls|
        invariant output == old(output) + Echoed(calls[..i], hook, stamp)
      {
        EchoedStep(calls, i, hook, stamp);
        EchoOne(calls[i], hook, stamp);
        i := i + 1;
      }
      assert calls[..i] == calls;
    }

    /** One call: when raylib reports it, the message goes through the hook, and
        LogMessage runs when the hook is this console's. */
    method EchoOne(c: GpuCall, hook: Option<RaylibHelpers.Callback>, stamp: string)
      modifies this`output
      ensures output == old(output) + EchoOf(c, hook, stamp)
    {
      if c.TraceLog? && Reported(c.level) {
        var forwarded := RaylibHelpers.Forward(hook, c.level, c.message);
        if forwarded.Some? && forwarded.value.0 == ConsoleCallback {
          LogMessage(forwarded.value.1, Some(forwarded.value.2), stamp);
        }
      }
    }

    /** ProcessCommand: the command's switch, then the command becomes the newest history
        entry (an earlier copy removed) and browsing restarts; an exception from loading a
        scene or changing a setting skips the history update. */
    method ProcessCommand(command: string, host: Host, dev: Device) returns (thrown: bool)
      requires Valid() && Ready(host)
      modifies this`history, this`historyIndex, dev, host.cfg, ConfigurationUpdate.MainTextures(host.holder),
        host.holder, host.holder.main, if host.holder.main == null then {} else host.holder.main.worlds
      ensures Valid() && Ready(host)
      ensures Effect(Parse(command), command, thrown, old(StateOf(host, dev)), StateOf(host, dev), host.metadataOf)
      ensures var c := Parse(command);
        c.LoadScene? && host.metadataOf(MetadataPath(ScenePath(c.scene))).Some? && !thrown ==> fresh(host.holder.main)
      ensures thrown ==> history == old(history) && historyIndex == old(historyIndex)
      ensures !thrown ==> history == Remembered(old(history), command) && historyIndex == 0
      ensures !thrown ==> history[|history| - 1] == command && forall y :: y in history <==> y in old(history) || y == command
      ensures dev.Env() == old(dev.Env())
    {
      thrown := Perform(Parse(command), command, host, dev);
      if !thrown {
        Remember(command, host, dev);
      }
    }

    /** The command becomes the newest history entry, an earlier copy removed, and
        browsing restarts; the host is not touched. */
    method Remember(command: string, ghost host: Host, ghost dev: Device)
      requires Valid() && Ready(host)
      modifies this`history, this`historyIndex
      ensures Valid() && Ready(host) && unchanged(dev, host.cfg, host.holder)
      ensures history == Remembered(old(history), command) && historyIndex == 0
      ensures history[|history| - 1] == command && forall y :: y in history <==> y in old(history) || y == command
    {
      RememberedSpec(history, command);
      history := RemoveFirst(history, command);
      history := history + [command];
      historyIndex := 0;
    }

    /** F1: toggles the console, focuses the prompt, stops browsing, and opens or closes
        a GUI layer. */
    method Toggle(gui: Gui.GuiMode, dev: Device)
      requires Valid() && gui.Valid()
      modifies this`shown, this`inputActive, this`inputHover, this`historyIndex, gui, dev
      ensures Valid() && gui.Valid()
      ensures shown == !old(shown) && PromptOf() == Toggled(old(PromptOf()))
      ensures gui.counter == Gui.NextCounter(old(gui.counter), shown)
      ensures dev.calls == old(dev.calls) + [Gui.CursorCall(gui.counter)] && dev.state.cursorEnabled == gui.IsGuiMode()
      ensures dev.Env() == old(dev.Env()) && dev.nextHandle == old(dev.nextHandle)
    {
      shown := !shown;
      inputActive := true;
      inputHover := false;
      historyIndex := 0;
      gui.SetGuiMode(shown, dev);
    }

    /** The key handling of a shown console with this frame's hover. A submitted command
        is processed and then the prompt is cleared, unless processing threw. */
    method Edit(keys: Keys, host: Host, dev: Device) returns (thrown: bool)
      requires Valid() && Ready(host)
      modifies this`inputActive, this`inputText, this`historyIndex, this`history,
        dev, host.cfg, ConfigurationUpdate.MainTextures(host.holder),
        host.holder, host.holder.main, if host.holder.main == null then {} else host.holder.main.worlds
      ensures Valid() && Ready(host) && inputHover == old(inputHover)
      ensures match HandleKeys(old(PromptOf()), old(history), keys)
        case Edit(p) => !thrown && PromptOf() == p && history == old(history) && dev.calls == old(dev.calls)
        case Submit(command) =>
          && (thrown ==> PromptOf() == old(PromptOf()) && history == old(history))
          && (!thrown ==> PromptOf() == old(PromptOf()).(index := 0, text := []) && history == Remembered(old(history), command))
      ensures dev.Env() == old(dev.Env())
      ensures old(dev.calls) <= dev.calls
    {
      if inputActive && (inputHover || !keys.click) && !keys.up && !keys.down && !keys.backspace && keys.enter {
        thrown := Enter(host, dev);
        return;
      }
      thrown := false;
      EditPrompt(keys);
    }

    /** The keys that only change the prompt: focus, history browsing, backspace and a
        typed character. */
    method EditPrompt(keys: Keys)
      requires Valid()
      requires !(inputActive && (inputHover || !keys.click) && !keys.up && !keys.down && !keys.backspace && keys.enter)
      modifies this`inputActive, this`inputText, this`historyIndex
      ensures Valid() && inputHover == old(inputHover) && history == old(history)
      ensures HandleKeys(old(PromptOf()), history, keys) == Outcome.Edit(PromptOf())
    {
      if !inputActive {
        inputActive := inputHover && keys.click;
        return;
      }
      if !inputHover && keys.click {
        inputActive := false;
        return;
      }
      if keys.up {
        if |history| == 0 {
          return;
        }
        historyIndex := historyIndex + 1;
        if historyIndex > |history| {
          historyIndex := |history|;
        }
        inputText := history[|history| - historyIndex];
        return;
      }
      if keys.down {
        if |history| == 0 {
          return;
        }
        historyIndex := historyIndex - 1;
        if historyIndex < 1 {
          historyIndex := 1;
        }
        inputText := history[|history| - historyIndex];
        return;
      }
      if keys.backspace {
        if |inputText| > 0 {
          inputText := inputText[..|inputText| - 1];
          return;
        }
        return;
      }
      var symbol := keys.typed;
      if IsAsciiLetterOrDigit(symbol) || IsWhiteSpace(symbol) || symbol == ':' || symbol == '.' {
        inputText := inputText + [symbol];
      }
    }

    /** Enter: a prompt text that is not blank is processed, trimmed; then the prompt is
        cleared, unless processing threw. */
    method Enter(host: Host, dev: Device) returns (thrown: bool)
      requires Valid() && Ready(host)
      modifies this`inputText, this`historyIndex, this`history,
        dev, host.cfg, ConfigurationUpdate.MainTextures(host.holder),
        host.holder, host.holder.main, if host.holder.main == null then {} else host.holder.main.worlds
      ensures Valid() && Ready(host)
      ensures IsBlank(old(inputText)) ==>
        !thrown && inputText == [] && history == old(history) && historyIndex == old(historyIndex) && dev.calls == old(dev.calls)
      ensures !IsBlank(old(inputText)) && thrown ==>
        inputText == old(inputText) && history == old(history) && historyIndex == old(historyIndex)
      ensures !IsBlank(old(inputText)) && !thrown ==>
        inputText == [] && history == Remembered(old(history), Trim(old(inputText))) && historyIndex == 0
      ensures dev.Env() == old(dev.Env())
      ensures old(dev.calls) <= dev.calls
    {
      thrown := false;
      if !IsBlank(inputText) {
        thrown := ProcessCommand(Trim(inputText), host, dev);
        if thrown {
          return;
        }
      }
      ClearInput(host);
    }

    /** input = "": the host is not touched. */
    method ClearInput(ghost host: Host)
      requires Ready(host)
      modifies this`inputText
      ensures inputText == [] && Ready(host)
    {
      inputText := [];
    }

    /** Update: F1 toggles the console; a hidden console ignores the rest of the frame;
        a shown one takes the frame's hover and then its keys. Every message the frame
        logs goes through raylib's log callback (the hook), so the console's log gains
        the lines Echoed gives for the frame's calls, all stamped `stamp`. */
    method Update(keys: Keys, gui: Gui.GuiMode, host: Host, hook: RaylibHelpers.TraceLogHook, stamp: string, dev: Device)
      returns (thrown: bool)
      requires Valid() && gui.Valid() && Ready(host)
      modifies this, gui, dev, host.cfg, ConfigurationUpdate.MainTextures(host.holder),
        host.holder, host.holder.main, if host.holder.main == null then {} else host.holder.main.worlds
      ensures Valid() && gui.Valid() && Ready(host)
      ensures shown == (old(shown) != keys.f1)
      ensures old(dev.calls) <= dev.calls && output == old(output) + Echoed(dev.calls[|old(dev.calls)|..], hook.callback, stamp)
      ensures keys.f1 ==> gui.counter == Gui.NextCounter(old(gui.counter), shown)
      ensures !keys.f1 ==> gui.counter == old(gui.counter)
      ensures var p := if keys.f1 then Toggled(old(PromptOf())) else old(PromptOf());
        && (!shown ==> !thrown && PromptOf() == p && history == old(history)
                       && dev.calls == old(dev.calls) + (if keys.f1 then [Gui.CursorCall(gui.counter)] else []))
        && (shown ==> match HandleKeys(p.(hover := keys.hover), old(history), keys)
              case Edit(q) => !thrown && PromptOf() == q && history == old(history)
                && dev.calls == old(dev.calls) + (if keys.f1 then [Gui.CursorCall(gui.counter)] else [])
              case Submit(command) =>
                && (thrown ==> PromptOf() == p.(hover := keys.hover) && history == old(history))
                && (!thrown ==> PromptOf() == p.(hover := keys.hover, index := 0, text := [])
                                && history == Remembered(old(history), command)))
      ensures dev.Env() == old(dev.Env())
    {
      var before := dev.calls;
      thrown := Respond(keys, gui, host, dev);
      Echo(dev.calls[|before|..], hook.callback, stamp);
    }

    /** Update before the log callback: the toggle, then the frame's hover and keys. */
    method Respond(keys: Keys, gui: Gui.GuiMode, host: Host, dev: Device) returns (thrown: bool)
      requires Valid() && gui.Valid() && Ready(host)
      modifies this`shown, this`inputActive, this`inputHover, this`inputText, this`historyIndex, this`history,
        gui, dev, host.cfg, ConfigurationUpdate.MainTextures(host.holder),
        host.holder, host.holder.main, if host.holder.main == null then {} else host.holder.main.worlds
      ensures Valid() && gui.Valid() && Ready(host)
      ensures shown == (old(shown) != keys.f1) && old(dev.calls) <= dev.calls
      ensures keys.f1 ==> gui.counter == Gui.NextCounter(old(gui.counter), shown)
      ensures !keys.f1 ==> gui.counter == old(gui.counter)
      ensures var p := if keys.f1 then Toggled(old(PromptOf())) else old(PromptOf());
        && (!shown ==> !thrown && PromptOf() == p && history == old(history)
                       && dev.calls == old(dev.calls) + (if keys.f1 then [Gui.CursorCall(gui.counter)] else []))
        && (shown ==> match HandleKeys(p.(hover := keys.hover), old(history), keys)
              case Edit(q) => !thrown && PromptOf() == q && history == old(history)
                && dev.calls == old(dev.calls) + (if keys.f1 then [Gui.CursorCall(gui.counter)] else [])
              case Submit(command) =>
                && (thrown ==> PromptOf() == p.(hover := keys.hover) && history == old(history))
                && (!thrown ==> PromptOf() == p.(hover := keys.hover, index := 0, text := [])
                                && history == Remembered(old(history), command)))
      ensures dev.Env() == old(dev.Env())
    {
      if keys.f1 {
        Toggle(gui, dev);
      }
      ghost var counter := gui.counter;
      thrown := HandleFrame(keys, host, dev);
      assert gui.counter == counter;
    }

    /** The rest of Update: a hidden console ignores the frame; a shown one takes the
        frame's hover and then its keys. */
    method HandleFrame(keys: Keys, host: Host, dev: Device) returns (thrown: bool)
      requires Valid() && Ready(host)
      modifies this`inputActive, this`inputHover, this`inputText, this`historyIndex, this`history,
        dev, host.cfg, ConfigurationUpdate.MainTextures(host.holder),
        host.holder, host.holder.main, if host.holder.main == null then {} else host.holder.main.worlds
      ensures Valid() && Ready(host)
      ensures !shown ==> !thrown && PromptOf() == old(PromptOf()) && history == old(history) && dev.calls == old(dev.calls)
      ensures shown ==> match HandleKeys(old(PromptOf()).(hover := keys.hover), old(history), keys)
        case Edit(q) => !thrown && PromptOf() == q && history == old(history) && dev.calls == old(dev.calls)
        case Submit(command) =>
          && (thrown ==> PromptOf() == old(PromptOf()).(hover := keys.hover) && history == old(history))
          && (!thrown ==> PromptOf() == old(PromptOf()).(hover := keys.hover, index := 0, text := [])
                          && history == Remembered(old(history), command))
      ensures dev.Env() == old(dev.Env())
      ensures old(dev.calls) <= dev.calls
    {
      thrown := false;
      if !shown {
        return;
      }
      inputHover := keys.hover;
      thrown := Edit(keys, host, dev);
    }
  }

  /** Console.Instance. */
  class ConsoleHolder {
    var instance: Console?

    constructor ()
      ensures instance == null
    {
      instance := null;
    }

    /** Init: creates the console once; a second call only warns. */
    method Init(stamp: string, hook: RaylibHelpers.TraceLogHook, dev: Device)
      modifies this, hook, dev
      ensures old(instance) != null ==>
        && instance == old(instance)
        && dev.calls == old(dev.calls) + [TraceLog(LogWarning, "[Console]: Couldn't create debug console because it is already created!")]
      ensures old(instance) == null ==>
        && instance != null && fresh(instance) && instance.Valid() && !instance.shown
        && instance.output == Banner(stamp) && hook.callback == Some(ConsoleCallback)
        && dev.calls == old(dev.calls) + [GpuCall.SetTraceLogCallback]
      ensures dev.state == old(dev.state) && dev.Env() == old(dev.Env())
    {
      if instance != null {
        dev.Log(LogWarning, "[Console]: Couldn't create debug console because it is already created!");
        return;
      }
      instance := new Console(stamp, hook, dev);
    }
  }
}
