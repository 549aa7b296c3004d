/** Game configuration (Core/Configuration.cs): a settings store read with
    defaults, written by the console, mirrored into settings.json, and the
    rules that turn settings into window and frame-rate state. */
module Configuration {
  import opened Common
  import opened Raylib

  /** The merged IConfiguration: settings.json overlaid by the command line.
      Keys are stored lower-cased because configuration keys are case-insensitive. */
  type Store = map<string, string>

  function Key(path: string): string { ToLower(path) }

  // ---------------------------------------------------------------- parsing

  predicate IsDigit(c: char) { '0' <= c <= '9' }

  function DigitValue(c: char): nat
    requires IsDigit(c)
  {
    c as int - '0' as int
  }

  /** The value of a non-empty string of decimal digits. */
  function Digits(s: string): (n: nat)
    requires forall i :: 0 <= i < |s| ==> IsDigit(s[i])
  {
    if s == [] then 0 else Digits(s[..|s| - 1]) * 10 + DigitValue(s[|s| - 1])
  }

  const IntMin := -0x8000_0000
  const IntMax := 0x7FFF_FFFF

  /** int.Parse with the integer number style: optional surrounding white space,
      an optional sign, decimal digits, and the 32-bit range. */
  function ParseInt(s: string): (r: Option<int>)
    ensures r.Some? ==> IntMin <= r.value <= IntMax
  {
    var t := Trim(s);
    var neg := |t| > 0 && t[0] == '-';
    var body := if |t| > 0 && (t[0] == '-' || t[0] == '+') then t[1..] else t;
    if body == [] || !(forall i :: 0 <= i < |body| ==> IsDigit(body[i])) then None
    else
      var d: int := Digits(body);
      var n := if neg then -d else d;
      if IntMin <= n <= IntMax then Some(n) else None
  }

  /** bool.Parse: "true" or "false" in any letter case, surrounding white space allowed. */
  function ParseBool(s: string): Option<bool> {
    var t := Trim(s);
    if EqualsIgnoreCase(t, "true") then Some(true)
    else if EqualsIgnoreCase(t, "false") then Some(false)
    else None
  }

  predicate IsHexDigit(c: char) { '0' <= c <= '9' || 'a' <= c <= 'f' || 'A' <= c <= 'F' }

  function HexDigitValue(c: char): (n: nat)
    requires IsHexDigit(c)
    ensures n < 16
  {
    if '0' <= c <= '9' then c as int - '0' as int
    else if 'a' <= c <= 'f' then c as int - 'a' as int + 10
    else c as int - 'A' as int + 10
  }

  /** The value of a string of hexadecimal digits. */
  function HexDigits(s: string): nat
    requires forall i :: 0 <= i < |s| ==> IsHexDigit(s[i])
  {
    if s == [] then 0 else HexDigits(s[..|s| - 1]) * 16 + HexDigitValue(s[|s| - 1])
  }

  /** Convert.ToInt32(text, 16): an optional '+', an optional "0x", at least one hex
      digit and nothing else, at most 32 bits, read as two's complement. */
  function ParseHex(s: string): (r: Option<int>)
    ensures r.Some? ==> IntMin <= r.value <= IntMax
  {
    var a := if |s| > 0 && s[0] == '+' then s[1..] else s;
    var body := if |a| >= 2 && a[0] == '0' && (a[1] == 'x' || a[1] == 'X') then a[2..] else a;
    if body == [] || !(forall i :: 0 <= i < |body| ==> IsHexDigit(body[i])) then None
    else
      var v: int := HexDigits(body);
      if v <= IntMax then Some(v) else if v < 0x1_0000_0000 then Some(v - 0x1_0000_0000) else None
  }

  /** Int32Converter, which IConfiguration.GetValue<int> uses: after trimming, text that
      starts with '#', "0x" or "&h" (either letter case) is hexadecimal, anything else goes
      to int.Parse. */
  function ConvertInt(s: string): (r: Option<int>)
    ensures r.Some? ==> IntMin <= r.value <= IntMax
  {
    var t := Trim(s);
    if |t| > 0 && t[0] == '#' then ParseHex(t[1..])
    else if |t| >= 2 && ((t[0] == '0' && (t[1] == 'x' || t[1] == 'X')) || (t[0] == '&' && (t[1] == 'h' || t[1] == 'H'))) then ParseHex(t[2..])
    else ParseInt(t)
  }

  /** Decimal text converts as int.Parse reads it, and "0x" text as the hexadecimal
      number: a setting written "60" or "0x3C" is 60. */
  lemma {:induction false} ConvertIntReadsBothBases(digits: string)
    requires |digits| > 0 && forall i :: 0 <= i < |digits| ==> IsDigit(digits[i])
    requires Digits(digits) <= IntMax
    ensures ConvertInt(digits) == Some(Digits(digits) as int)
    ensures HexDigits(digits) <= IntMax ==> ConvertInt("0x" + digits) == Some(HexDigits(digits) as int)
  {
    TrimDigits(digits);
    TrimDigits("0x" + digits);
    assert ("0x" + digits)[2..] == digits;
    assert forall i :: 0 <= i < |digits| ==> IsHexDigit(digits[i]);
  }

  /** Trim leaves text that starts and ends with a digit unchanged. */
  lemma TrimDigits(s: string)
    requires |s| > 0 && IsDigit(s[0]) && IsDigit(s[|s| - 1])
    ensures Trim(s) == s
  {
  }

  /** TextureFilter by its numeric value: the named members for 0..5, any other 32-bit
      value as it is (the enum conversion accepts it and raylib ignores it). */
  function FilterOfCode(n: int): (r: TextureFilter)
    requires IntMin <= n <= IntMax
    ensures r.UnnamedFilter? <==> !(0 <= n <= 5)
  {
    if n == 0 then Point else if n == 1 then Bilinear else if n == 2 then Trilinear
    else if n == 3 then Anisotropic4x else if n == 4 then Anisotropic8x
    else if n == 5 then Anisotropic16x else UnnamedFilter(n)
  }

  /** Enum parsing of TextureFilter: a member name in any letter case, or a decimal number. */
  function ParseFilter(s: string): Option<TextureFilter> {
    var t := ToLower(Trim(s));
    if t == "point" then Some(Point) else if t == "bilinear" then Some(Bilinear)
    else if t == "trilinear" then Some(Trilinear) else if t == "anisotropic4x" then Some(Anisotropic4x)
    else if t == "anisotropic8x" then Some(Anisotropic8x) else if t == "anisotropic16x" then Some(Anisotropic16x)
    else match ParseInt(s) case Some(n) => Some(FilterOfCode(n)) case None => None
  }

  // ---------------------------------------------------------------- reading

  /** IConfiguration.GetValue<int/bool/TextureFilter>: the type default for a missing
      key, the parsed text otherwise; None when the stored text does not parse (it throws). */
  function ReadInt(store: Store, path: string): (r: Option<int>)
  {
    if Key(path) !in store then Some(0) else ConvertInt(store[Key(path)])
  }

  function ReadBool(store: Store, path: string): (r: Option<bool>)
  {
    if Key(path) !in store then Some(false) else ParseBool(store[Key(path)])
  }

  function ReadFilter(store: Store, path: string): (r: Option<TextureFilter>)
  {
    if Key(path) !in store then Some(Point) else ParseFilter(store[Key(path)])
  }

  /** Configuration.Get<T>: the type default when there is no configuration or reading throws. */
  function OrDefault<T>(instance: Option<Store>, read: Option<T>, default: T): T {
    if instance.Some? && read.Some? then read.value else default
  }

  /** Get<int>: the stored number, or 0 when the setting is missing, unreadable or
      there is no configuration yet. */
  lemma GetIntIsStoredOrDefault(instance: Option<Store>, path: string)
    ensures var r := OrDefault(instance, if instance.Some? then ReadInt(instance.value, path) else None, 0);
      && (r == 0 || (instance.Some? && Key(path) in instance.value && ConvertInt(instance.value[Key(path)]) == Some(r)))
      && (instance.None? ==> r == 0)
      && (instance.Some? && Key(path) in instance.value && ConvertInt(instance.value[Key(path)]).Some? ==>
            r == ConvertInt(instance.value[Key(path)]).value)
  {
  }

  // ---------------------------------------------------------------- settings.json tokens

  /** JTokenType, as far as the conversion table distinguishes it. */
  datatype TokenType = IntegerType | FloatType | BooleanType | DateType | TimeSpanType | StringType | NullType | ObjectType

  datatype Token =
    | IntegerToken(i: int)
    | FloatToken(f: real)
    | BooleanToken(b: bool)
    | DateToken(ticks: int)
    | TimeSpanToken(span: int)
    | StringToken(s: string)
    | NullToken
    | ObjectToken

  function TypeOf(t: Token): TokenType {
    match t
    case IntegerToken(_) => IntegerType
    case FloatToken(_) => FloatType
    case BooleanToken(_) => BooleanType
    case DateToken(_) => DateType
    case TimeSpanToken(_) => TimeSpanType
    case StringToken(_) => StringType
    case NullToken => NullType
    case ObjectToken => ObjectType
  }

  /** Culture-dependent parsers that are not modelled: float, DateTime and TimeSpan. */
  datatype Parsers = Parsers(float: string -> Option<real>, date: string -> Option<int>, timeSpan: string -> Option<int>)

  /** The new token UpdateFile writes, chosen by the type of the token already in the
      file. A value-type conversion that fails yields null and unboxing that null throws,
      so None here is an exception. */
  function NewToken(existing: TokenType, value: string, p: Parsers): (r: Option<Token>)
  {
    match existing
    case IntegerType =>
      if '.' in value then (match p.float(value) case Some(f) => Some(FloatToken(f)) case None => None)
      else (match ParseInt(value) case Some(i) => Some(IntegerToken(i)) case None => None)
    case FloatType => (match p.float(value) case Some(f) => Some(FloatToken(f)) case None => None)
    case BooleanType => (match ParseBool(value) case Some(b) => Some(BooleanToken(b)) case None => None)
    case DateType => (match p.date(value) case Some(d) => Some(DateToken(d)) case None => None)
    case TimeSpanType => (match p.timeSpan(value) case Some(t) => Some(TimeSpanToken(t)) case None => None)
    case _ => if value == "null" then Some(NullToken) else Some(StringToken(value))
  }

  /** The conversion table keeps the token's type, except that an integer written with a
      '.' becomes a float and the text "null" becomes JSON null; only value types can throw. */
  lemma NewTokenType(existing: TokenType, value: string, p: Parsers)
    ensures var r := NewToken(existing, value, p);
      && (r.Some? && existing == IntegerType ==> TypeOf(r.value) == if '.' in value then FloatType else IntegerType)
      && (r.Some? && existing in {FloatType, BooleanType, DateType, TimeSpanType} ==> TypeOf(r.value) == existing)
      && (existing in {StringType, NullType, ObjectType} ==>
            r == Some(if value == "null" then NullToken else StringToken(value)))
      && (existing == IntegerType && '.' !in value ==> (r.Some? <==> ParseInt(value).Some?))
      && (existing == BooleanType ==> (r.Some? <==> ParseBool(value).Some?))
  {
  }

  /** The settings.json token path of a configuration path: ':' becomes '.'. */
  function TokenPath(path: string): (r: string)
    ensures |r| == |path| && ':' !in r
  {
    ReplaceChar(path, ':', '.')
  }

  // ---------------------------------------------------------------- decision rules

  /** What Update runs for a changed setting. */
  datatype Action = ScreenSize | Fullscreen | Vsync | FpsLock | Filtering | MasterVolume | MusicVolume | EffectsVolume | NoAction

  function UpdateAction(path: string): (a: Action) {
    if path == "graphic:screen:width" || path == "graphic:screen:height" then ScreenSize
    else if path == "graphic:fullscreen" then Fullscreen
    else if path == "graphic:vsync" then Vsync
    else if path == "graphic:fpsLock" then FpsLock
    else if path == "graphic:filtering" || path == "graphic:mipmaps" then Filtering
    else if path == "sound:master" then MasterVolume
    else if path == "sound:music" then MusicVolume
    else if path == "sound:effects" then EffectsVolume
    else NoAction
  }

  /** The paths Update reacts to; the switch is case-sensitive. */
  const KnownPaths := {"graphic:screen:width", "graphic:screen:height", "graphic:fullscreen", "graphic:vsync",
                       "graphic:fpsLock", "graphic:filtering", "graphic:mipmaps", "sound:master", "sound:music",
                       "sound:effects"}

  lemma UpdateDispatch(path: string)
    ensures UpdateAction(path) == ScreenSize <==> path in {"graphic:screen:width", "graphic:screen:height"}
    ensures UpdateAction(path) == Filtering <==> path in {"graphic:filtering", "graphic:mipmaps"}
    ensures UpdateAction(path) == NoAction <==> path !in KnownPaths
  {
  }

  /** The frame-rate target ApplyFpsLock sets: the configured value from 30 up, else 0 (unlimited). */
  function FpsTarget(fpsLock: int): int {
    if fpsLock >= 30 then fpsLock else 0
  }

  lemma FpsTargetRule(fpsLock: int)
    ensures FpsTarget(fpsLock) == fpsLock <==> fpsLock >= 30 || fpsLock == 0
    ensures FpsTarget(fpsLock) == 0 <==> fpsLock < 30 || fpsLock == 0
    ensures FpsTarget(fpsLock) == 0 || FpsTarget(fpsLock) >= 30
  {
  }

  /** C# integer division, which truncates toward zero. */
  function CsDiv(a: int, b: int): (q: int)
    requires b > 0
    ensures a >= 0 ==> q == a / b
    ensures a < 0 ==> q == -((-a) / b)
  {
    if a >= 0 then a / b else -((-a) / b)
  }

  /** Window size and position ApplyScreenSize sets. `scaled` is the monitor size times 0.8
      truncated to int, a floating-point product that is not modelled. */
  datatype Placement = Placement(width: int, height: int, x: int, y: int)

  function ScreenPlacement(width: int, height: int, monitorWidth: int, monitorHeight: int, scaled: (int, int)): Placement {
    var (w, h) := if width < 1 || height < 1 then scaled else (width, height);
    Placement(w, h, CsDiv(monitorWidth - w, 2), CsDiv(monitorHeight - h, 2))
  }

  /** Either dimension below 1 replaces both; the window is centred, rounding toward zero. */
  lemma ScreenPlacementRule(width: int, height: int, mw: int, mh: int, scaled: (int, int))
    ensures var p := ScreenPlacement(width, height, mw, mh, scaled);
      && ((p.width, p.height) == if width >= 1 && height >= 1 then (width, height) else scaled)
      && -1 <= mw - 2 * p.x - p.width <= 1 && -1 <= mh - 2 * p.y - p.height <= 1
      && (mw >= p.width ==> p.x >= 0 && mw - 2 * p.x - p.width >= 0)
      && (mw < p.width ==> p.x <= 0 && mw - 2 * p.x - p.width <= 0)
  {
  }

  /** ApplyFullscreen toggles only when the window's state differs from the setting. */
  function FullscreenCalls(current: bool, configured: bool): seq<GpuCall> {
    if current == configured then [] else [ToggleFullscreen]
  }

  lemma FullscreenConverges(s: GpuState, configured: bool)
    ensures Run(s, FullscreenCalls(s.fullscreen, configured)).fullscreen == configured
    ensures var s1 := Run(s, FullscreenCalls(s.fullscreen, configured));
      FullscreenCalls(s1.fullscreen, configured) == []
  {
  }

  /** The calls ApplyFpsLock makes on a configuration; None when reading the setting throws. */
  function FpsLockCalls(store: Store): Option<seq<GpuCall>> {
    match ReadInt(store, "graphic:fpsLock")
    case None => None
    case Some(n) => Some([SetTargetFps(FpsTarget(n))])
  }

  /** The calls ApplyFullscreen makes when the window's fullscreen state is `current`. */
  function FullscreenApplyCalls(store: Store, current: bool): Option<seq<GpuCall>> {
    match ReadBool(store, "graphic:fullscreen")
    case None => None
    case Some(b) => Some(FullscreenCalls(current, b))
  }

  /** The calls ApplyVsync makes: the VSync hint is set or cleared as configured. */
  function VsyncCalls(store: Store): Option<seq<GpuCall>> {
    match ReadBool(store, "graphic:vsync")
    case None => None
    case Some(b) => Some([SetVsync(b)])
  }

  /** The calls ApplyScreenSize makes on a monitor of the given size. */
  function ScreenSizeCalls(store: Store, monitorWidth: int, monitorHeight: int, scaled: (int, int)): Option<seq<GpuCall>> {
    var w := ReadInt(store, "graphic:screen:width");
    var h := ReadInt(store, "graphic:screen:height");
    if w.None? || h.None? then None
    else
      var p := ScreenPlacement(w.value, h.value, monitorWidth, monitorHeight, scaled);
      Some([SetWindowSize(p.width, p.height), SetWindowPosition(p.x, p.y)])
  }

  /** Applying the fps lock always sets a target of 0 or at least 30, and the configured
      value itself whenever it is at least 30. */
  lemma FpsLockApplied(store: Store)
    ensures var c := FpsLockCalls(store);
      c.Some? ==>
        && |c.value| == 1 && c.value[0].SetTargetFps?
        && (c.value[0].fps == 0 || c.value[0].fps >= 30)
        && (ReadInt(store, "graphic:fpsLock").value >= 30 ==> c.value[0].fps == ReadInt(store, "graphic:fpsLock").value)
    ensures Key("graphic:fpsLock") !in store ==> FpsLockCalls(store) == Some([SetTargetFps(0)])
  {
  }

  /** Applying fullscreen twice toggles at most once: the second application issues nothing. */
  lemma FullscreenIdempotent(store: Store, s: GpuState)
    requires FullscreenApplyCalls(store, s.fullscreen).Some?
    ensures var s1 := Run(s, FullscreenApplyCalls(store, s.fullscreen).value);
      && s1.fullscreen == ReadBool(store, "graphic:fullscreen").value
      && FullscreenApplyCalls(store, s1.fullscreen) == Some([])
  {
    FullscreenConverges(s, ReadBool(store, "graphic:fullscreen").value);
  }

  // ---------------------------------------------------------------- the configuration object

  /** The static Configuration class: its instance and the settings file it mirrors. */
  class Config {
    var instance: Option<Store>
    /** settings.json as a map from dotted token path to token. */
    var file: map<string, Token>

    constructor (file: map<string, Token>)
      ensures instance == None && this.file == file
    {
      instance := None;
      this.file := file;
    }

    /** Configuration.Get<bool>, Get<int> and Get<TextureFilter>. */
    function GetBool(path: string): bool reads this {
      OrDefault(instance, if instance.Some? then ReadBool(instance.value, path) else None, false)
    }
    function GetInt(path: string): int reads this {
      OrDefault(instance, if instance.Some? then ReadInt(instance.value, path) else None, 0)
    }
    function GetFilter(path: string): TextureFilter reads this {
      OrDefault(instance, if instance.Some? then ReadFilter(instance.value, path) else None, Point)
    }

    /** Init: builds the configuration once; a second call only warns. */
    method Init(fromFile: Store, fromArgs: Store, dev: Device)
      modifies this, dev
      ensures old(instance).Some? ==>
        (instance == old(instance)
         && dev.calls == old(dev.calls) + [TraceLog(LogWarning, "[Configuration]: Couldn't create game configuration because it is already created!")])
      ensures old(instance).None? ==> instance == Some(fromFile + fromArgs) && dev.calls == old(dev.calls)
      ensures file == old(file) && dev.state == old(dev.state) && dev.Env() == old(dev.Env())
    {
      if instance.Some? {
        dev.Log(LogWarning, "[Configuration]: Couldn't create game configuration because it is already created!");
        return;
      }
      instance := Some(fromFile + fromArgs);
    }

    /** Set: stores the text and rewrites the file token; `thrown` when the token conversion throws. */
    method Set(path: string, value: string, p: Parsers) returns (thrown: bool)
      modifies this
      ensures old(instance).None? ==> instance == old(instance) && file == old(file) && !thrown
      ensures old(instance).Some? ==> instance == Some(old(instance).value[Key(path) := value])
      ensures old(instance).Some? ==> (thrown, file) == UpdatedFile(old(file), path, value, p)
    {
      thrown := false;
      if instance.None? {
        return;
      }
      instance := Some(instance.value[Key(path) := value]);
      thrown := UpdateFile(path, value, p);
    }

    /** UpdateFile: only a token already in the file is rewritten. */
    method UpdateFile(path: string, value: string, p: Parsers) returns (thrown: bool)
      modifies this`file
      ensures (thrown, file) == UpdatedFile(old(file), path, value, p)
    {
      var tokenPath := TokenPath(path);
      thrown := false;
      if tokenPath !in file {
        return;
      }
      var token := NewToken(TypeOf(file[tokenPath]), value, p);
      if token.None? {
        thrown := true;
        return;
      }
      file := file[tokenPath := token.value];
    }

    /** ApplyFpsLock. */
    method ApplyFpsLock(dev: Device) returns (thrown: bool)
      modifies dev
      ensures Applied(old(dev.calls), dev.calls, thrown, if instance.Some? then FpsLockCalls(instance.value) else Some([]))
      ensures dev.Env() == old(dev.Env())
    {
      thrown := false;
      if instance.None? {
        return;
      }
      var fpsLock := ReadInt(instance.value, "graphic:fpsLock");
      if fpsLock.None? {
        thrown := true;
        return;
      }
      if fpsLock.value >= 30 {
        dev.Issue(SetTargetFps(fpsLock.value));
        return;
      }
      dev.Issue(SetTargetFps(0));
    }

    /** ApplyFullscreen. */
    method ApplyFullscreen(dev: Device) returns (thrown: bool)
      modifies dev
      ensures Applied(old(dev.calls), dev.calls, thrown,
                      if instance.Some? then FullscreenApplyCalls(instance.value, old(dev.state.fullscreen)) else Some([]))
      ensures dev.Env() == old(dev.Env())
    {
      thrown := false;
      if instance.None? {
        return;
      }
      var fullscreen := ReadBool(instance.value, "graphic:fullscreen");
      if fullscreen.None? {
        thrown := true;
        return;
      }
      if dev.state.fullscreen == fullscreen.value {
        return;
      }
      dev.Issue(ToggleFullscreen);
    }

    /** ApplyVsync. */
    method ApplyVsync(dev: Device) returns (thrown: bool)
      modifies dev
      ensures Applied(old(dev.calls), dev.calls, thrown, if instance.Some? then VsyncCalls(instance.value) else Some([]))
      ensures dev.Env() == old(dev.Env())
    {
      thrown := false;
      if instance.None? {
        return;
      }
      var vsync := ReadBool(instance.value, "graphic:vsync");
      if vsync.None? {
        thrown := true;
        return;
      }
      dev.Issue(SetVsync(vsync.value));
    }

    /** ApplyScreenSize; `scaled` is (int)(monitor size * 0.8f). */
    method ApplyScreenSize(dev: Device, scaled: (int, int)) returns (thrown: bool)
      modifies dev
      ensures Applied(old(dev.calls), dev.calls, thrown,
                      if instance.Some? then ScreenSizeCalls(instance.value, old(dev.monitorWidth), old(dev.monitorHeight), scaled) else Some([]))
      ensures dev.Env() == old(dev.Env())
    {
      thrown := false;
      if instance.None? {
        return;
      }
      var width := ReadInt(instance.value, "graphic:screen:width");
      var height := ReadInt(instance.value, "graphic:screen:height");
      if width.None? || height.None? {
        thrown := true;
        return;
      }
      var p := ScreenPlacement(width.value, height.value, dev.monitorWidth, dev.monitorHeight, scaled);
      dev.Issue(SetWindowSize(p.width, p.height));
      dev.Issue(SetWindowPosition(p.x, p.y));
    }
  }

  /** A configuration step ran as specified: it threw without a call, or made exactly the expected calls. */
  predicate Applied(before: seq<GpuCall>, after: seq<GpuCall>, thrown: bool, expected: Option<seq<GpuCall>>) {
    (thrown <==> expected.None?) && after == before + (if thrown then [] else expected.value)
  }

  /** What UpdateFile leaves in the file, and whether it throws. */
  function UpdatedFile(file: map<string, Token>, path: string, value: string, p: Parsers): (bool, map<string, Token>) {
    var tokenPath := TokenPath(path);
    if tokenPath !in file then (false, file)
    else match NewToken(TypeOf(file[tokenPath]), value, p)
      case None => (true, file)
      case Some(t) => (false, file[tokenPath := t])
  }

  /** UpdateFile never adds a token: the file's paths are unchanged and only the written path can change. */
  lemma UpdateFileRewritesOnly(file: map<string, Token>, path: string, value: string, p: Parsers)
    ensures UpdatedFile(file, path, value, p).1.Keys == file.Keys
    ensures forall k :: k in file && k != TokenPath(path) ==> UpdatedFile(file, path, value, p).1[k] == file[k]
    ensures TokenPath(path) !in file ==> UpdatedFile(file, path, value, p) == (false, file)
  {
  }
}
