/** Core/Rendering/DebugStage.cs: the overlay pass. Each overlay has its own setting:
    the frame-rate counter (debug:fps), thumbnails of the five channels (debug:rendering)
    and the debug console when it is shown (debug:console). The version text is always
    drawn. The stage has no shader of its own and hands nothing on. */
module DebugStages {
  import opened Common
  import Dict
  import opened Raylib
  import opened RenderBuffers
  import opened StageCommon
  import Configuration
  import DebugConsole

  /** The channels the thumbnails show, top to bottom, in the order they are read. */
  const DebugInputs: seq<string> := ["diffuse", "normal", "specular", "depth", "lighting"]

  /** One thumbnail per texture found, row k for the k-th channel. The source and
      target rectangles (the diffuse size, flipped, scaled by 0.1) are not modelled. */
  function ThumbnailCalls(ts: seq<Texture2D>): (r: seq<GpuCall>)
    ensures |r| == |ts|
  {
    seq(|ts|, k requires 0 <= k < |ts| => DrawTexturePro(ts[k], k))
  }

  /** The text of the version label: the informational version, or "unknown" when the
      assembly has none. */
  function VersionText(version: Option<string>): string {
    "ver. " + (if version.Some? then version.value else "unknown")
  }

  /** The version label, 28 pixels above the bottom of the window. */
  function VersionCall(version: Option<string>, height: int): GpuCall {
    DrawText(VersionText(version), 8, height - 28, 20, Gold)
  }

  /** The label always starts with "ver. ", and names the version or says "unknown". */
  lemma VersionTextSpec(version: Option<string>)
    ensures VersionText(version)[..5] == "ver. "
    ensures version.None? ==> VersionText(version) == "ver. unknown"
    ensures version.Some? ==> VersionText(version)[5..] == version.value
  {
  }

  /** The settings the overlays read, each false when missing or unreadable. */
  datatype Overlays = Overlays(fps: bool, rendering: bool, console: bool)

  /** What the pass draws: the counter, the thumbnails read before the first missing
      channel, and, unless a channel was missing, the console and the version label. */
  function DebugCalls(o: Overlays, ts: seq<Texture2D>, consoleDraws: seq<GpuCall>, version: Option<string>, height: int): seq<GpuCall> {
    (if o.fps then [DrawFps(8, 8)] else [])
    + (if o.rendering then ThumbnailCalls(ts) else [])
    + (if o.rendering && |ts| < |DebugInputs| then [] else consoleDraws + [VersionCall(version, height)])
  }

  /** The shape of the pass, given the thumbnails read: the counter comes first exactly
      when debug:fps is set, the k-th thumbnail shows the k-th texture read, and when
      every channel was read (or the thumbnails are off) the pass ends with the version
      label. */
  lemma DebugCallsShape(o: Overlays, ts: seq<Texture2D>, consoleDraws: seq<GpuCall>, version: Option<string>, height: int)
    requires |ts| <= |DebugInputs| && NoFps(consoleDraws)
    ensures var r := DebugCalls(o, ts, consoleDraws, version, height);
      && (!o.rendering || |ts| == |DebugInputs| ==> |r| > 0 && r[|r| - 1] == VersionCall(version, height))
      && (o.rendering ==> forall k :: 0 <= k < |ts| ==> r[(if o.fps then 1 else 0) + k] == DrawTexturePro(ts[k], k))
      && (o.fps <==> DrawFps(8, 8) in r)
  {
    var head: seq<GpuCall> := if o.fps then [DrawFps(8, 8)] else [];
    var thumbs := if o.rendering then ThumbnailCalls(ts) else [];
    var tail := if o.rendering && |ts| < |DebugInputs| then [] else consoleDraws + [VersionCall(version, height)];
    var r := DebugCalls(o, ts, consoleDraws, version, height);
    assert r == head + thumbs + tail;
    VersionLast(head + thumbs, tail, version, height);
    if o.rendering {
      ThumbnailsAt(head, ThumbnailCalls(ts), tail, ts);
    }
    FpsFirst(o.fps, thumbs, tail);
  }

  lemma VersionLast(front: seq<GpuCall>, tail: seq<GpuCall>, version: Option<string>, height: int)
    requires tail != [] ==> tail[|tail| - 1] == VersionCall(version, height)
    ensures tail != [] ==> |front + tail| > 0 && (front + tail)[|front + tail| - 1] == VersionCall(version, height)
  {
    if tail != [] {
      assert (front + tail)[|front + tail| - 1] == tail[|tail| - 1];
    }
  }

  lemma ThumbnailsAt(head: seq<GpuCall>, thumbs: seq<GpuCall>, tail: seq<GpuCall>, ts: seq<Texture2D>)
    requires thumbs == ThumbnailCalls(ts)
    ensures forall k :: 0 <= k < |ts| ==> (head + thumbs + tail)[|head| + k] == DrawTexturePro(ts[k], k)
  {
    forall k | 0 <= k < |ts|
      ensures (head + thumbs + tail)[|head| + k] == DrawTexturePro(ts[k], k)
    {
      assert (head + thumbs + tail)[|head| + k] == thumbs[k];
    }
  }

  lemma FpsFirst(fps: bool, thumbs: seq<GpuCall>, tail: seq<GpuCall>)
    requires forall k :: 0 <= k < |thumbs| ==> thumbs[k].DrawTexturePro?
    requires NoFps(tail)
    ensures var r := (if fps then [DrawFps(8, 8)] else []) + thumbs + tail; fps <==> DrawFps(8, 8) in r
  {
    if fps {
      assert ([DrawFps(8, 8)] + thumbs + tail)[0] == DrawFps(8, 8);
    } else {
      assert [] + thumbs + tail == thumbs + tail;
      NoFpsAppend(thumbs, tail);
    }
  }

  /** The thumbnails read before the first missing channel; all five exactly when no
      channel is missing. */
  lemma ThumbnailsRead(values: Channels)
    ensures var ts := Lookups(values, DebugInputs, |DebugInputs|);
      && (forall k :: 0 <= k < |ts| ==> Dict.Get(values, DebugInputs[k]) == Some(ts[k]))
      && (|ts| == |DebugInputs| <==> forall k :: 0 <= k < |DebugInputs| ==> Dict.HasKey(values, DebugInputs[k]))
  {
    LookupsSpec(values, DebugInputs, |DebugInputs|);
  }

  /** DebugCalls as the three parts of the pass, each added to the calls so far. */
  lemma DebugCallsJoin(o: Overlays, ts: seq<Texture2D>, consoleDraws: seq<GpuCall>, version: Option<string>, height: int,
                       c0: seq<GpuCall>, c1: seq<GpuCall>, c2: seq<GpuCall>)
    requires c1 == c0 + (if o.fps then [DrawFps(8, 8)] else [])
    requires c2 == c1 + (if o.rendering then ThumbnailCalls(ts) else [])
    ensures o.rendering && |ts| < |DebugInputs| ==> c2 == c0 + DebugCalls(o, ts, consoleDraws, version, height)
    ensures !(o.rendering && |ts| < |DebugInputs|) ==>
      c2 + (consoleDraws + [VersionCall(version, height)]) == c0 + DebugCalls(o, ts, consoleDraws, version, height)
  {
    var head: seq<GpuCall> := if o.fps then [DrawFps(8, 8)] else [];
    var thumbs := if o.rendering then ThumbnailCalls(ts) else [];
    var tail := if o.rendering && |ts| < |DebugInputs| then [] else consoleDraws + [VersionCall(version, height)];
    AppendAssoc(c0, head, thumbs);
    AppendAssoc(c0, head + thumbs, tail);
    AppendAssoc(c0 + head, thumbs, tail);
  }

  predicate NoFps(cs: seq<GpuCall>) {
    forall k :: 0 <= k < |cs| ==> !cs[k].DrawFps?
  }

  lemma NoFpsAppend(a: seq<GpuCall>, b: seq<GpuCall>)
    requires NoFps(a) && NoFps(b)
    ensures NoFps(a + b) && DrawFps(8, 8) !in a + b
  {
    var ab := a + b;
    forall k | 0 <= k < |ab| ensures !ab[k].DrawFps? {
      if k < |a| {
        assert ab[k] == a[k];
      } else {
        assert ab[k] == b[k - |a|];
      }
    }
  }

  /** One more thumbnail. */
  lemma ThumbnailSnoc(ts: seq<Texture2D>, t: Texture2D)
    ensures ThumbnailCalls(ts + [t]) == ThumbnailCalls(ts) + [DrawTexturePro(t, |ts|)]
  {
    var a, b := ThumbnailCalls(ts + [t]), ThumbnailCalls(ts) + [DrawTexturePro(t, |ts|)];
    forall k | 0 <= k < |a| ensures a[k] == b[k] {
      if k < |ts| {
        assert (ts + [t])[k] == ts[k];
      }
    }
  }

  /** The draws the debug stage makes leave the observable state as it was. */
  lemma StepOverlays(s: GpuState, c: GpuCall)
    requires c.DrawFps? || c.DrawTexturePro? || c.DrawText? || c.DrawRectangle?
    ensures Step(s, c) == s
  {
  }

  /** The console's draws, when debug:console is set and the console exists and is
      shown; `caption` is its prompt as drawn. */
  function ConsoleDraws(on: bool, c: DebugConsole.Console?, caption: string, width: int, height: int): seq<GpuCall>
    reads c
  {
    if on && c != null && c.shown
    then DebugConsole.ConsoleCalls(width, height, c.inputActive, c.inputHover, caption, c.output)
    else []
  }

  class DebugStage {
    const shader: Shader

    /** DebugStage(): the empty shader new Shader(), id 0. */
    constructor ()
      ensures shader == Shader(0)
    {
      shader := Shader(0);
    }

    /** The overlay settings as Configuration.Get reads them. */
    static function OverlaysOf(cfg: Configuration.Config): Overlays
      reads cfg
    {
      Overlays(cfg.GetBool("debug:fps"), cfg.GetBool("debug:rendering"), cfg.GetBool("debug:console"))
    }

    /** Render(values): the output is always empty. It throws exactly when the thumbnails
        are on and a channel is missing, and then the console and the version label are
        not drawn. `version` is the informational version attribute of the entry
        assembly. */
    method Render(values: Channels, cfg: Configuration.Config, consoles: DebugConsole.ConsoleHolder, caption: string,
                  version: Option<string>, dev: Device) returns (out: Channels, thrown: bool)
      modifies dev
      ensures out == []
      ensures thrown <==> cfg.GetBool("debug:rendering") && |Lookups(values, DebugInputs, |DebugInputs|)| < |DebugInputs|
      ensures dev.calls == old(dev.calls)
        + DebugCalls(OverlaysOf(cfg), Lookups(values, DebugInputs, |DebugInputs|),
                     ConsoleDraws(cfg.GetBool("debug:console"), consoles.instance, caption, old(dev.screenWidth), old(dev.screenHeight)),
                     version, old(dev.screenHeight))
      ensures dev.state == old(dev.state) && dev.nextHandle == old(dev.nextHandle) && dev.Env() == old(dev.Env())
    {
      out := [];
      var o := OverlaysOf(cfg);
      thrown := Draw(o, values, consoles, caption, version, dev);
    }

    /** Render with the settings read. */
    method Draw(o: Overlays, values: Channels, consoles: DebugConsole.ConsoleHolder, caption: string,
                version: Option<string>, dev: Device) returns (thrown: bool)
      modifies dev
      ensures thrown <==> o.rendering && |Lookups(values, DebugInputs, |DebugInputs|)| < |DebugInputs|
      ensures dev.calls == old(dev.calls)
        + DebugCalls(o, Lookups(values, DebugInputs, |DebugInputs|),
                     ConsoleDraws(o.console, consoles.instance, caption, old(dev.screenWidth), old(dev.screenHeight)),
                     version, old(dev.screenHeight))
      ensures dev.state == old(dev.state) && dev.nextHandle == old(dev.nextHandle) && dev.Env() == old(dev.Env())
    {
      ghost var c0 := dev.calls;
      ghost var ts := Lookups(values, DebugInputs, |DebugInputs|);
      ghost var draws := ConsoleDraws(o.console, consoles.instance, caption, dev.screenWidth, dev.screenHeight);
      ghost var height := dev.screenHeight;
      DrawFpsIf(o.fps, dev);
      ghost var c1 := dev.calls;
      thrown := false;
      if o.rendering {
        thrown := DrawRenderingDebug(values, dev);
      }
      DebugCallsJoin(o, ts, draws, version, height, c0, c1, dev.calls);
      if thrown {
        return;
      }
      DrawTail(o.console, consoles, caption, version, dev);
    }

    /** The frame-rate counter, when debug:fps is set. */
    method DrawFpsIf(on: bool, dev: Device)
      modifies dev
      ensures dev.calls == old(dev.calls) + (if on then [DrawFps(8, 8)] else [])
      ensures dev.state == old(dev.state) && dev.nextHandle == old(dev.nextHandle) && dev.Env() == old(dev.Env())
    {
      if on {
        StepOverlays(dev.state, DrawFps(8, 8));
        dev.Issue(DrawFps(8, 8));
      }
    }

    /** The console, when debug:console is set and it exists and is shown, then the
        version label. */
    method DrawTail(on: bool, consoles: DebugConsole.ConsoleHolder, caption: string, version: Option<string>, dev: Device)
      modifies dev
      ensures dev.calls == old(dev.calls)
        + ConsoleDraws(on, consoles.instance, caption, old(dev.screenWidth), old(dev.screenHeight))
        + [VersionCall(version, old(dev.screenHeight))]
      ensures dev.state == old(dev.state) && dev.nextHandle == old(dev.nextHandle) && dev.Env() == old(dev.Env())
    {
      if on {
        var console := consoles.instance;
        if console != null && console.shown {
          console.Render(caption, dev);
        }
      }
      DrawGameVersion(version, dev);
    }

    /** DrawRenderingDebug: the five channels are read in order, each drawn as a
        thumbnail as soon as it is read; a missing one throws. */
    method DrawRenderingDebug(values: Channels, dev: Device) returns (thrown: bool)
      modifies dev
      ensures var ts := Lookups(values, DebugInputs, |DebugInputs|);
        && thrown == (|ts| < |DebugInputs|)
        && dev.calls == old(dev.calls) + ThumbnailCalls(ts)
      ensures dev.state == old(dev.state) && dev.nextHandle == old(dev.nextHandle) && dev.Env() == old(dev.Env())
    {
      thrown := false;
      var i := 0;
      while i < |DebugInputs|
        invariant 0 <= i <= |DebugInputs|
        invariant |Lookups(values, DebugInputs, i)| == i
        invariant dev.calls == old(dev.calls) + ThumbnailCalls(Lookups(values, DebugInputs, i))
        invariant dev.state == old(dev.state) && dev.nextHandle == old(dev.nextHandle) && dev.Env() == old(dev.Env())
      {
        ghost var ts := Lookups(values, DebugInputs, i);
        LookupsStep(values, DebugInputs, i);
        var t := Dict.Get(values, DebugInputs[i]);
        if t.None? {
          LookupsStop(values, DebugInputs, i + 1, |DebugInputs|);
          return true;
        }
        StepOverlays(dev.state, DrawTexturePro(t.value, i));
        dev.Issue(DrawTexturePro(t.value, i));
        ThumbnailSnoc(ts, t.value);
        i := i + 1;
      }
    }

    /** DrawGameVersion: the version label at the bottom left. */
    method DrawGameVersion(version: Option<string>, dev: Device)
      modifies dev
      ensures dev.calls == old(dev.calls) + [VersionCall(version, old(dev.screenHeight))]
      ensures dev.state == old(dev.state) && dev.nextHandle == old(dev.nextHandle) && dev.Env() == old(dev.Env())
    {
      var call := VersionCall(version, dev.screenHeight);
      StepOverlays(dev.state, call);
      dev.Issue(call);
    }
  }
}
