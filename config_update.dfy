/** Core/Configuration.cs, the settings that reach the game: ApplyFiltering, which
    re-applies the mipmaps and filtering settings to every texture of Scene.Main, the
    sound settings, and the Update switch that runs the rule for a changed setting. */
module ConfigurationUpdate {
  import opened Common
  import Dict
  import opened Raylib
  import opened Resources
  import opened Scenes
  import opened SceneCreation
  import opened Configuration

  // ---------------------------------------------------------------- ApplyFiltering

  /** The GPU texture each resource holds, in order. */
  function TexturesIn(ts: seq<TextureResource>): (r: seq<Texture2D>)
    reads ts
    ensures |r| == |ts| && forall k :: 0 <= k < |ts| ==> r[k] == ts[k].texture
  {
    seq(|ts|, k requires 0 <= k < |ts| reads ts => ts[k].texture)
  }

  /** The texture resources of the main scene, in enumeration order; none without a scene. */
  function MainTextures(holder: SceneHolder): seq<TextureResource>
    reads holder, holder.main
  {
    if holder.main == null then [] else Dict.Values(holder.main.textures)
  }

  /** Each texture after SetMipmaps(enabled). */
  function Remipped(ts: seq<Texture2D>, enabled: bool, levels: Texture2D -> int): (r: seq<Texture2D>)
    ensures |r| == |ts| && forall k :: 0 <= k < |ts| ==> r[k] == WithMipmaps(ts[k], enabled, levels)
  {
    seq(|ts|, k requires 0 <= k < |ts| => WithMipmaps(ts[k], enabled, levels))
  }

  /** The calls of one pass of the foreach: SetMipmaps, then SetFiltering on the texture
      as SetMipmaps left it. */
  function TextureFilteringCalls(t: Texture2D, mipmaps: bool, filter: TextureFilter, levels: Texture2D -> int): seq<GpuCall> {
    MipmapCalls(t, mipmaps) + [SetTextureFilter(WithMipmaps(t, mipmaps, levels), filter)]
  }

  /** The calls of the foreach over textures `ts`, in enumeration order. */
  function FilteringCalls(ts: seq<Texture2D>, mipmaps: bool, filter: TextureFilter, levels: Texture2D -> int): seq<GpuCall>
    decreases |ts|
  {
    if ts == [] then []
    else FilteringCalls(ts[..|ts| - 1], mipmaps, filter, levels) + TextureFilteringCalls(ts[|ts| - 1], mipmaps, filter, levels)
  }

  /** The filter calls among `calls`, in order. */
  function FilterCalls(calls: seq<GpuCall>): (r: seq<GpuCall>)
    decreases |calls|
  {
    if calls == [] then []
    else FilterCalls(calls[..|calls| - 1]) + (if calls[|calls| - 1].SetTextureFilter? then [calls[|calls| - 1]] else [])
  }

  lemma {:induction false} FilterCallsAppend(a: seq<GpuCall>, b: seq<GpuCall>)
    ensures FilterCalls(a + b) == FilterCalls(a) + FilterCalls(b)
    decreases |b|
  {
    if b == [] {
      assert a + b == a;
    } else {
      FilterCallsAppend(a, b[..|b| - 1]);
      assert (a + b)[..|a + b| - 1] == a + b[..|b| - 1];
    }
  }

  /** The foreach sets every texture's filter exactly once, in enumeration order, to the
      configured filter, on the texture as its mipmaps leave it. */
  lemma {:induction false} FilteringSetsEachFilter(ts: seq<Texture2D>, mipmaps: bool, filter: TextureFilter, levels: Texture2D -> int)
    ensures var fs := FilterCalls(FilteringCalls(ts, mipmaps, filter, levels));
      |fs| == |ts| && forall k :: 0 <= k < |ts| ==> fs[k] == SetTextureFilter(Remipped(ts, mipmaps, levels)[k], filter)
    decreases |ts|
  {
    if ts != [] {
      var n := |ts| - 1;
      var init := ts[..n];
      var t := ts[n];
      FilteringSetsEachFilter(init, mipmaps, filter, levels);
      FilterCallsAppend(FilteringCalls(init, mipmaps, filter, levels), TextureFilteringCalls(t, mipmaps, filter, levels));
      PassFilterCalls(t, mipmaps, filter, levels);
      var before := FilterCalls(FilteringCalls(init, mipmaps, filter, levels));
      var last := SetTextureFilter(WithMipmaps(t, mipmaps, levels), filter);
      var fs := FilterCalls(FilteringCalls(ts, mipmaps, filter, levels));
      assert |before| == n && fs == before + [last];
      var r := Remipped(ts, mipmaps, levels);
      forall k | 0 <= k < |ts|
        ensures fs[k] == SetTextureFilter(r[k], filter)
      {
        if k < n {
          var u := ts[k];
          assert init[k] == u;
          assert before[k] == SetTextureFilter(Remipped(init, mipmaps, levels)[k], filter);
          assert Remipped(init, mipmaps, levels)[k] == WithMipmaps(u, mipmaps, levels) == r[k];
          assert fs[k] == before[k];
        } else {
          assert k == n && r[n] == WithMipmaps(t, mipmaps, levels);
          assert fs[k] == (before + [last])[n] == last;
        }
      }
    }
  }

  /** One pass of the foreach sets one filter, after the mipmaps call if any. */
  lemma PassFilterCalls(t: Texture2D, mipmaps: bool, filter: TextureFilter, levels: Texture2D -> int)
    ensures FilterCalls(TextureFilteringCalls(t, mipmaps, filter, levels)) == [SetTextureFilter(WithMipmaps(t, mipmaps, levels), filter)]
  {
    var last := SetTextureFilter(WithMipmaps(t, mipmaps, levels), filter);
    FilterCallsAppend(MipmapCalls(t, mipmaps), [last]);
    assert FilterCalls(MipmapCalls(t, mipmaps)) == [] by {
      if MipmapCalls(t, mipmaps) != [] {
        assert MipmapCalls(t, mipmaps) == [GenTextureMipmaps(t)];
        assert MipmapCalls(t, mipmaps)[..0] == [];
      }
    }
    assert FilterCalls([last]) == [last] by {
      assert [last][..0] == [];
    }
  }

  /** Applying the mipmaps setting a second time leaves every texture as the first time
      left it. */
  lemma RemippedIdempotent(ts: seq<Texture2D>, enabled: bool, levels: Texture2D -> int)
    ensures Remipped(Remipped(ts, enabled, levels), enabled, levels) == Remipped(ts, enabled, levels)
  {
    forall k | 0 <= k < |ts|
      ensures WithMipmaps(WithMipmaps(ts[k], enabled, levels), enabled, levels) == WithMipmaps(ts[k], enabled, levels)
    {
      MipmapsIdempotent(ts[k], levels);
    }
  }

  /** One pass of the foreach: SetMipmaps, then SetFiltering. */
  method FilterOne(t: TextureResource, mipmaps: bool, filter: TextureFilter, dev: Device)
    modifies t`texture, dev
    ensures t.texture == WithMipmaps(old(t.texture), mipmaps, dev.mipmapLevels)
    ensures dev.calls == old(dev.calls) + TextureFilteringCalls(old(t.texture), mipmaps, filter, dev.mipmapLevels)
    ensures dev.state == old(dev.state) && dev.Env() == old(dev.Env()) && dev.nextHandle == old(dev.nextHandle)
  {
    t.SetMipmaps(mipmaps, dev);
    t.SetFiltering(filter, dev);
  }

  /** The foreach of ApplyFiltering over distinct texture resources. */
  method FilterAll(ts: seq<TextureResource>, mipmaps: bool, filter: TextureFilter, dev: Device)
    requires forall i, j :: 0 <= i < j < |ts| ==> ts[i] != ts[j]
    modifies ts, dev
    ensures TexturesIn(ts) == Remipped(old(TexturesIn(ts)), mipmaps, dev.mipmapLevels)
    ensures dev.calls == old(dev.calls) + FilteringCalls(old(TexturesIn(ts)), mipmaps, filter, dev.mipmapLevels)
    ensures dev.state == old(dev.state) && dev.Env() == old(dev.Env()) && dev.nextHandle == old(dev.nextHandle)
  {
    ghost var before := TexturesIn(ts);
    for i := 0 to |ts|
      invariant forall k :: 0 <= k < i ==> ts[k].texture == WithMipmaps(before[k], mipmaps, dev.mipmapLevels)
      invariant forall k :: i <= k < |ts| ==> ts[k].texture == before[k]
      invariant dev.calls == old(dev.calls) + FilteringCalls(before[..i], mipmaps, filter, dev.mipmapLevels)
      invariant dev.state == old(dev.state) && dev.Env() == old(dev.Env()) && dev.nextHandle == old(dev.nextHandle)
    {
      FilterOne(ts[i], mipmaps, filter, dev);
      assert before[..i + 1][..i] == before[..i];
      AppendAssoc(old(dev.calls), FilteringCalls(before[..i], mipmaps, filter, dev.mipmapLevels),
                  TextureFilteringCalls(before[i], mipmaps, filter, dev.mipmapLevels));
    }
    assert before[..|ts|] == before;
  }

  /** The mipmaps and filtering settings, as ApplyFiltering reads them; None when reading
      either throws. */
  function FilteringSettings(store: Store): Option<(bool, TextureFilter)> {
    var mipmaps := ReadBool(store, "graphic:mipmaps");
    var filter := ReadFilter(store, "graphic:filtering");
    if mipmaps.None? || filter.None? then None else Some((mipmaps.value, filter.value))
  }

  /** The calls ApplyFiltering makes: nothing without a configuration or a main scene;
      None when reading either setting throws. */
  function FilteringApplyCalls(instance: Option<Store>, textures: Option<seq<Texture2D>>, levels: Texture2D -> int): Option<seq<GpuCall>> {
    if instance.None? || textures.None? then Some([])
    else match FilteringSettings(instance.value)
      case None => None
      case Some((mipmaps, filter)) => Some(FilteringCalls(textures.value, mipmaps, filter, levels))
  }

  /** The texture resources of a valid scene are distinct objects. */
  lemma DistinctTextures(s: Scene)
    requires s.Valid()
    ensures var ts := Dict.Values(s.textures); forall i, j :: 0 <= i < j < |ts| ==> ts[i] != ts[j]
  {
  }

  /** The textures of the main scene, when there is one. */
  function MainTexturesIn(holder: SceneHolder): Option<seq<Texture2D>>
    reads holder, holder.main, MainTextures(holder)
  {
    if holder.main == null then None else Some(TexturesIn(MainTextures(holder)))
  }

  /** ApplyFiltering: with a configuration and a main scene, every texture of the scene
      gets the mipmaps setting and then the filtering setting, in enumeration order; a
      setting that does not read throws before any texture changes. */
  method ApplyFiltering(cfg: Config, holder: SceneHolder, dev: Device) returns (thrown: bool)
    requires holder.Valid()
    modifies dev, MainTextures(holder)
    ensures Applied(old(dev.calls), dev.calls, thrown, FilteringApplyCalls(cfg.instance, old(MainTexturesIn(holder)), dev.mipmapLevels))
    ensures var settings := if cfg.instance.None? then None else FilteringSettings(cfg.instance.value);
      TexturesIn(MainTextures(holder)) ==
        if settings.None? then old(TexturesIn(MainTextures(holder)))
        else Remipped(old(TexturesIn(MainTextures(holder))), settings.value.0, dev.mipmapLevels)
    ensures holder.Valid()
    ensures dev.state == old(dev.state) && dev.Env() == old(dev.Env()) && dev.nextHandle == old(dev.nextHandle)
  {
    thrown := false;
    if cfg.instance.None? || holder.main == null {
      return;
    }
    // GetValue<bool>("graphic:mipmaps"), then GetValue<TextureFilter>("graphic:filtering")
    var settings := FilteringSettings(cfg.instance.value);
    if settings.None? {
      thrown := true;
      return;
    }
    FilterMain(holder, settings.value.0, settings.value.1, dev);
  }

  /** The loop of ApplyFiltering over the main scene's textures. */
  method FilterMain(holder: SceneHolder, mipmaps: bool, filter: TextureFilter, dev: Device)
    requires holder.Valid() && holder.main != null
    modifies dev, MainTextures(holder)
    ensures dev.calls == old(dev.calls) + FilteringCalls(old(TexturesIn(MainTextures(holder))), mipmaps, filter, dev.mipmapLevels)
    ensures TexturesIn(MainTextures(holder)) == Remipped(old(TexturesIn(MainTextures(holder))), mipmaps, dev.mipmapLevels)
    ensures holder.Valid()
    ensures dev.state == old(dev.state) && dev.Env() == old(dev.Env()) && dev.nextHandle == old(dev.nextHandle)
  {
    var main := holder.main;
    var ts := Dict.Values(main.textures);
    DistinctTextures(main);
    assert MainTextures(holder) == ts;
    ghost var worlds := main.worlds;
    assert forall k :: 0 <= k < |ts| ==> ts[k] as object != main && ts[k] as object != holder && ts[k] as object !in worlds;
    FilterAll(ts, mipmaps, filter, dev);
    assert unchanged(holder, main) && unchanged(worlds);
    assert MainTextures(holder) == ts;
  }

  // ---------------------------------------------------------------- sound

  /** GetValue<float>: 0 for a missing key, the parsed text otherwise; None when it does not
      parse. float.Parse is the oracle `parseFloat`. */
  function ReadReal(store: Store, path: string, parseFloat: string -> Option<real>): Option<real> {
    if Key(path) !in store then Some(0.0) else parseFloat(store[Key(path)])
  }

  /** The calls ApplyMasterVolume makes. */
  function MasterVolumeCalls(instance: Option<Store>, parseFloat: string -> Option<real>): Option<seq<GpuCall>> {
    if instance.None? then Some([])
    else match ReadReal(instance.value, "sound:master", parseFloat)
      case None => None
      case Some(v) => Some([SetMasterVolume(v)])
  }

  // ---------------------------------------------------------------- Update

  /** The calls Update(path) makes, by the rule the path selects; the music and effects
      volumes have no rule yet and make none. */
  function UpdateCalls(action: Action, instance: Option<Store>, fullscreen: bool, monitorWidth: int, monitorHeight: int,
                       scaled: (int, int), textures: Option<seq<Texture2D>>, levels: Texture2D -> int,
                       parseFloat: string -> Option<real>): Option<seq<GpuCall>> {
    if instance.None? then Some([])
    else match action
      case ScreenSize => ScreenSizeCalls(instance.value, monitorWidth, monitorHeight, scaled)
      case Fullscreen => FullscreenApplyCalls(instance.value, fullscreen)
      case Vsync => VsyncCalls(instance.value)
      case FpsLock => FpsLockCalls(instance.value)
      case Filtering => FilteringApplyCalls(instance, textures, levels)
      case MasterVolume => MasterVolumeCalls(instance, parseFloat)
      case MusicVolume => Some([])
      case EffectsVolume => Some([])
      case NoAction => Some([])
  }

  /** A path Update does not know, or the music and effects volumes, change nothing; the
      screen width and height run the same rule, and so do filtering and mipmaps. */
  lemma UpdateCallsRule(path: string, instance: Option<Store>, fullscreen: bool, mw: int, mh: int, scaled: (int, int),
                        textures: Option<seq<Texture2D>>, levels: Texture2D -> int, parseFloat: string -> Option<real>)
    ensures path !in KnownPaths || path in {"sound:music", "sound:effects"} ==>
      UpdateCalls(UpdateAction(path), instance, fullscreen, mw, mh, scaled, textures, levels, parseFloat) == Some([])
    ensures path in {"graphic:screen:width", "graphic:screen:height"} ==>
      UpdateCalls(UpdateAction(path), instance, fullscreen, mw, mh, scaled, textures, levels, parseFloat)
      == if instance.None? then Some([]) else ScreenSizeCalls(instance.value, mw, mh, scaled)
    ensures path in {"graphic:filtering", "graphic:mipmaps"} ==>
      UpdateCalls(UpdateAction(path), instance, fullscreen, mw, mh, scaled, textures, levels, parseFloat)
      == FilteringApplyCalls(instance, textures, levels)
    ensures instance.None? ==> UpdateCalls(UpdateAction(path), instance, fullscreen, mw, mh, scaled, textures, levels, parseFloat) == Some([])
  {
    UpdateDispatch(path);
  }

  /** ApplyMasterVolume. */
  method ApplyMasterVolume(cfg: Config, parseFloat: string -> Option<real>, dev: Device) returns (thrown: bool)
    modifies dev
    ensures Applied(old(dev.calls), dev.calls, thrown, MasterVolumeCalls(cfg.instance, parseFloat))
    ensures dev.state == old(dev.state) && dev.Env() == old(dev.Env()) && dev.nextHandle == old(dev.nextHandle)
  {
    thrown := false;
    if cfg.instance.None? {
      return;
    }
    var volume := ReadReal(cfg.instance.value, "sound:master", parseFloat);
    if volume.None? {
      thrown := true;
      return;
    }
    dev.Issue(SetMasterVolume(volume.value));
  }

  /** The rules Update runs for every setting but filtering, which reaches the scene. */
  method ApplySetting(cfg: Config, action: Action, scaled: (int, int), parseFloat: string -> Option<real>, dev: Device)
    returns (thrown: bool)
    requires action != Filtering
    modifies dev
    ensures Applied(old(dev.calls), dev.calls, thrown,
                    UpdateCalls(action, cfg.instance, old(dev.state.fullscreen), old(dev.monitorWidth), old(dev.monitorHeight),
                                scaled, None, dev.mipmapLevels, parseFloat))
    ensures dev.Env() == old(dev.Env())
  {
    thrown := false;
    match action
    case ScreenSize => thrown := cfg.ApplyScreenSize(dev, scaled);
    case Fullscreen => thrown := cfg.ApplyFullscreen(dev);
    case Vsync => thrown := cfg.ApplyVsync(dev);
    case FpsLock => thrown := cfg.ApplyFpsLock(dev);
    case MasterVolume => thrown := ApplyMasterVolume(cfg, parseFloat, dev);
    case MusicVolume =>
    case EffectsVolume =>
    case NoAction =>
  }

  /** Update(path): the switch over the changed setting's path. `scaled` is the monitor
      size the screen-size rule falls back to. */
  method Update(cfg: Config, path: string, holder: SceneHolder, scaled: (int, int), parseFloat: string -> Option<real>, dev: Device)
    returns (thrown: bool)
    requires holder.Valid()
    modifies dev, MainTextures(holder)
    ensures Applied(old(dev.calls), dev.calls, thrown,
                    UpdateCalls(UpdateAction(path), cfg.instance, old(dev.state.fullscreen), old(dev.monitorWidth), old(dev.monitorHeight),
                                scaled, old(MainTexturesIn(holder)), dev.mipmapLevels, parseFloat))
    ensures UpdateAction(path) != Filtering ==> unchanged(MainTextures(holder))
    ensures holder.Valid() && dev.Env() == old(dev.Env())
  {
    var action := UpdateAction(path);
    if action == Filtering {
      thrown := ApplyFiltering(cfg, holder, dev);
    } else {
      thrown := ApplySetting(cfg, action, scaled, parseFloat, dev);
    }
  }
}
