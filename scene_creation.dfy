/** Core/Scene.cs, creation: the private constructor Scene(metadata, basePath), which
    loads the resources, then the entities, then settles the main camera, and the
    static Load that clears the current main scene and replaces it. */
module SceneCreation {
  import opened Common
  import Dict
  import opened Raylib
  import opened Resources
  import opened Values
  import opened Binding
  import opened Entities
  import opened Interfaces
  import opened SceneRules
  import opened Scenes
  import opened SceneLoading
  import opened EntityLoading
  import Configuration

  // ---------------------------------------------------------------- the main camera

  /** IsMain of each camera, in enumeration order. */
  function MainsOf(cs: seq<CameraEntity>): (r: seq<bool>)
    ensures |r| == |cs| && forall k :: 0 <= k < |cs| ==> r[k] == cs[k].isMain
  {
    seq(|cs|, k requires 0 <= k < |cs| => cs[k].isMain)
  }

  /** The position FirstOrDefault(x => x.IsMain) stops at: the first flag set, if any. */
  function FirstTrue(flags: seq<bool>): (r: Option<nat>)
    ensures r.Some? ==> r.value < |flags| && flags[r.value] && forall k :: 0 <= k < r.value ==> !flags[k]
    ensures r.None? <==> forall k :: 0 <= k < |flags| ==> !flags[k]
    decreases |flags|
  {
    if flags == [] then None
    else if flags[0] then Some(0)
    else match FirstTrue(flags[1..])
      case None => None
      case Some(k) => Some(k + 1)
  }

  /** Cameras collected from the declarations carry the flags the declarations bind, so
      the first main camera is the first camera declaration whose IsMain binds true. */
  lemma MainsOfCollected(cs: seq<CameraEntity>, flags: seq<bool>)
    requires MainsFrom(cs, flags)
    ensures MainsOf(cs) == flags
  {
  }

  /** The main-camera rule of the constructor: the first camera marked main, otherwise a
      new CameraEntity("MainCamera"), added to the cameras and to the updatables. */
  method SetMainCamera(s: Scene)
    requires s.Valid()
    modifies s`cameras, s`updatables, s`mainCamera
    ensures match FirstTrue(MainsOf(old(s.cameras)))
      case Some(k) => s.cameras == old(s.cameras) && s.mainCamera == s.cameras[k]
      case None =>
        && s.mainCamera != null && fresh(s.mainCamera)
        && s.mainCamera.name == Some("MainCamera") && s.mainCamera.camera == DefaultCamera && !s.mainCamera.isMain
        && s.cameras == old(s.cameras) + [s.mainCamera]
    ensures s.Valid() && s.mainCamera in s.cameras
  {
    var first := FirstTrue(MainsOf(s.cameras));
    if first.Some? {
      s.mainCamera := s.cameras[first.value];
    } else {
      var c := new CameraEntity("MainCamera");
      AddCamera(s, c);
      s.mainCamera := c;
    }
  }

  // ---------------------------------------------------------------- Scene(metadata, basePath)

  /** Every texture resource some declaration binds to a world. */
  function AllWorldTextures(ds: seq<EntityMetadata>, ctx: EntityContext): set<TextureResource>
    decreases |ds|
  {
    if ds == [] then {} else AllWorldTextures(ds[..|ds| - 1], ctx) + WorldTextures(ds[|ds| - 1], ctx)
  }

  /** AllWorldTextures holds every declaration's world textures, whatever the snapshot. */
  lemma {:induction false} AllWorldTexturesCover(ds: seq<EntityMetadata>, ctx: EntityContext, tex: map<TextureResource, Texture2D>, k: nat)
    requires k < |ds|
    ensures WorldTextures(ds[k], ctx.(tex := tex)) <= AllWorldTextures(ds, ctx)
    decreases |ds|
  {
    assert Resolved(ds[k], ctx.(tex := tex)) == Resolved(ds[k], ctx);
    if k < |ds| - 1 {
      AllWorldTexturesCover(ds[..|ds| - 1], ctx, tex, k);
      assert ds[..|ds| - 1][k] == ds[k];
    }
  }

  /** Each declaration's properties form a dictionary, as deserialized metadata does. */
  predicate WellFormed(md: SceneMetadata) {
    forall k :: 0 <= k < |md.entities| ==> Dict.Valid(md.entities[k].properties)
  }

  /** A snapshot of every texture resource some declaration binds to a world, each with
      the GPU texture it holds, covers every declaration. */
  lemma SnapshotCovers(ds: seq<EntityMetadata>, ctx: EntityContext, tex: map<TextureResource, Texture2D>)
    requires forall k :: 0 <= k < |ds| ==> Dict.Valid(ds[k].properties)
    requires tex.Keys == AllWorldTextures(ds, ctx)
    ensures Covered(ds, ctx.(tex := tex))
  {
    forall k | 0 <= k < |ds|
      ensures WorldTextures(ds[k], ctx.(tex := tex)) <= tex.Keys
    {
      AllWorldTexturesCover(ds, ctx, tex, k);
    }
  }

  /** The GPU texture each of `ts` holds now. */
  ghost function Snapshot(ts: set<TextureResource>): (m: map<TextureResource, Texture2D>)
    reads ts
    ensures m.Keys == ts && TexturesAre(m)
  {
    map t | t in ts :: t.texture
  }

  /** The main camera the constructor settles on, after the declared cameras: the first
      one marked main, otherwise a new default camera named "MainCamera" appended to
      them. */
  ghost predicate MainCameraRule(cameras: seq<CameraEntity>, main: CameraEntity?, declared: seq<CameraEntity>)
    reads main
  {
    match FirstTrue(MainsOf(declared))
    case Some(k) => cameras == declared && main == declared[k]
    case None =>
      && main != null && main !in declared
      && main.name == Some("MainCamera") && main.camera == DefaultCamera && !main.isMain
      && cameras == declared + [main]
  }

  /** What a constructor that did not throw leaves: a valid scene whose renderables,
      point lights and declared cameras are the ones LoadEntities collects from `ds`,
      with the main camera the rule picks. */
  ghost predicate Settled(s: Scene, declared: seq<CameraEntity>, ds: seq<EntityMetadata>, ctx: EntityContext)
    reads s, s.worlds, s.mainCamera, declared
  {
    && s.Valid() && Collected(s.renderables, declared, s.pointLights, ds, ctx)
    && MainCameraRule(s.cameras, s.mainCamera, declared)
  }

  /** LoadEntities and the main-camera rule, on a scene whose resources are loaded. */
  method Populate(s: Scene, ds: seq<EntityMetadata>, ghost ctx: EntityContext,
                  fileExists: string -> bool, pipelineShader: Option<Shader>, conv: Converter, dev: Device)
    returns (thrown: bool, ghost declared: seq<CameraEntity>)
    requires s.Valid() && Matches(s, ctx, conv, fileExists, pipelineShader) && TexturesAre(ctx.tex) && Covered(ds, ctx)
    requires s.renderables == [] && s.cameras == [] && s.pointLights == []
    modifies s`renderables, s`worlds, s`renderModels, s`cameras, s`updatables, s`pointLights, s`mainCamera, dev
    ensures thrown <==> AnyThrows(ds, ctx, |ds|)
    ensures !thrown ==> Settled(s, declared, ds, ctx)
    ensures s.textures == ctx.textures && s.models == ctx.models
    ensures dev.Env() == old(dev.Env())
    ensures old(dev.calls) <= dev.calls
  {
    thrown := LoadEntities(s, ds, ctx, fileExists, pipelineShader, conv, dev);
    declared := s.cameras;
    if !thrown {
      declared := Settle(s, ds, ctx);
    }
  }

  /** The main-camera rule on the collected entities. */
  method Settle(s: Scene, ds: seq<EntityMetadata>, ghost ctx: EntityContext) returns (ghost declared: seq<CameraEntity>)
    requires s.Valid() && Collected(s.renderables, s.cameras, s.pointLights, ds, ctx)
    modifies s`cameras, s`updatables, s`mainCamera
    ensures declared == old(s.cameras) && Settled(s, declared, ds, ctx)
  {
    declared := s.cameras;
    ghost var rs, ps := s.renderables, s.pointLights;
    SetMainCamera(s);
    assert s.renderables == rs && s.pointLights == ps;
  }

  /** The first camera declaration whose IsMain binds true is the first main camera among
      the cameras collected from the declarations. */
  lemma SettledMain(s: Scene, declared: seq<CameraEntity>, ds: seq<EntityMetadata>, ctx: EntityContext)
    requires Settled(s, declared, ds, ctx)
    ensures FirstTrue(MainFlags(Declared(ds, {CameraType}), ctx)) == FirstTrue(MainsOf(declared))
  {
    MainsOfCollected(declared, MainFlags(Declared(ds, {CameraType}), ctx));
  }

  /** LoadResources on an empty scene, which it leaves valid with nothing else loaded. */
  method LoadTables(s: Scene, rs: seq<ResourceMetadata>, ghost ctx: LoadContext, fileExists: string -> bool,
                    cfg: Configuration.Config, pipelineShader: Option<Shader>, dev: Device) returns (thrown: bool)
    requires Describes(ctx, s.basePath, fileExists, cfg, pipelineShader, dev)
    requires s.Valid() && s.textures == [] && s.models == [] && s.renderables == [] && s.cameras == [] && s.pointLights == []
    modifies s`textures, s`models, dev
    ensures thrown <==> !LoadsWithoutClash(rs, ctx.basePath, ctx.fileExists, ctx.modelShape)
    ensures !thrown ==>
      && Dict.Keys(s.textures) == ["fallback"] + Kept(rs, TextureLoaded, ctx.basePath, ctx.fileExists, ctx.modelShape)
      && Dict.Keys(s.models) == ["fallback"] + Kept(rs, ModelLoaded, ctx.basePath, ctx.fileExists, ctx.modelShape)
    ensures !thrown ==> Sourced(s, rs, ctx, old(dev.nextHandle) + 2, |rs|)
    ensures s.Valid() && s.renderables == [] && s.cameras == [] && s.pointLights == []
    ensures dev.Env() == old(dev.Env())
    ensures old(dev.calls) <= dev.calls
  {
    thrown := LoadResources(s, rs, ctx, fileExists, cfg, pipelineShader, dev);
  }

  /** The private constructor: LoadResources, LoadEntities and the main-camera rule, in
      that order; an exception from either loading step escapes, and the entities are
      not loaded after resources that threw. The resource context is the one the device,
      the settings and the parameters describe on entry; the entity context is the
      scene's tables with the world textures snapshotted after the resources load. It
      throws exactly when two resources clash or a named declaration throws, and
      without an exception the tables hold the fallbacks and the kept resources, and the
      scene is settled. The GPU calls of each phase are the ones LoadResources and
      LoadEntities state. */
  method Create(md: SceneMetadata, basePath: string, fileExists: string -> bool, cfg: Configuration.Config,
                pipelineShader: Option<Shader>, conv: Converter, dev: Device)
    returns (s: Scene, thrown: bool, ghost lctx: LoadContext, ghost ectx: EntityContext, ghost declared: seq<CameraEntity>)
    requires WellFormed(md)
    modifies dev
    ensures fresh(s) && s.basePath == basePath
    ensures old(Describes(lctx, basePath, fileExists, cfg, pipelineShader, dev))
    ensures Matches(s, ectx, conv, fileExists, pipelineShader) && Covered(md.entities, ectx)
    ensures thrown <==>
      !LoadsWithoutClash(md.resources, lctx.basePath, lctx.fileExists, lctx.modelShape) || AnyThrows(md.entities, ectx, |md.entities|)
    ensures !thrown ==> Constructed(s, md, lctx, ectx, declared, conv, fileExists, pipelineShader)
    ensures dev.Env() == old(dev.Env())
    ensures old(dev.calls) <= dev.calls
  {
    lctx := LoadContext(basePath, fileExists, dev.imageSize, dev.modelShape, dev.mipmapLevels, dev.defaultShader,
                        cfg.GetBool("graphic:mipmaps"), cfg.GetFilter("graphic:filtering"), pipelineShader);
    assert Describes(lctx, basePath, fileExists, cfg, pipelineShader, dev);
    s := new Scene.Empty(basePath);
    thrown := LoadTables(s, md.resources, lctx, fileExists, cfg, pipelineShader, dev);
    ghost var base := EntityContext(s.textures, s.models, conv, basePath, fileExists, pipelineShader, map[]);
    ghost var tex := Snapshot(AllWorldTextures(md.entities, base));
    SnapshotCovers(md.entities, base, tex);
    ectx := base.(tex := tex);
    if thrown {
      declared := [];
      return;
    }
    thrown, declared := PopulateLoaded(s, md, lctx, ectx, fileExists, pipelineShader, conv, dev);
  }

  /** What a constructor that did not throw leaves: no two kept resources clash and no
      entity declaration throws; the tables hold "fallback" and the kept names; and the
      scene is settled on the entity declarations. */
  ghost predicate Constructed(s: Scene, md: SceneMetadata, lctx: LoadContext, ectx: EntityContext, declared: seq<CameraEntity>,
                              conv: Converter, fileExists: string -> bool, pipelineShader: Option<Shader>)
    reads s, s.worlds, s.mainCamera, declared
  {
    && Matches(s, ectx, conv, fileExists, pipelineShader) && Covered(md.entities, ectx)
    && LoadsWithoutClash(md.resources, lctx.basePath, lctx.fileExists, lctx.modelShape)
    && !AnyThrows(md.entities, ectx, |md.entities|)
    && Dict.Keys(s.textures) == ["fallback"] + Kept(md.resources, TextureLoaded, lctx.basePath, lctx.fileExists, lctx.modelShape)
    && Dict.Keys(s.models) == ["fallback"] + Kept(md.resources, ModelLoaded, lctx.basePath, lctx.fileExists, lctx.modelShape)
    && Settled(s, declared, md.entities, ectx)
  }

  /** Populate on a scene whose resources loaded without an exception; it leaves the
      tables as they are. */
  method PopulateLoaded(s: Scene, md: SceneMetadata, ghost lctx: LoadContext, ghost ectx: EntityContext,
                        fileExists: string -> bool, pipelineShader: Option<Shader>, conv: Converter, dev: Device)
    returns (thrown: bool, ghost declared: seq<CameraEntity>)
    requires s.Valid() && Matches(s, ectx, conv, fileExists, pipelineShader) && TexturesAre(ectx.tex) && Covered(md.entities, ectx)
    requires s.renderables == [] && s.cameras == [] && s.pointLights == []
    requires LoadsWithoutClash(md.resources, lctx.basePath, lctx.fileExists, lctx.modelShape)
    requires Dict.Keys(s.textures) == ["fallback"] + Kept(md.resources, TextureLoaded, lctx.basePath, lctx.fileExists, lctx.modelShape)
    requires Dict.Keys(s.models) == ["fallback"] + Kept(md.resources, ModelLoaded, lctx.basePath, lctx.fileExists, lctx.modelShape)
    modifies s`renderables, s`worlds, s`renderModels, s`cameras, s`updatables, s`pointLights, s`mainCamera, dev
    ensures thrown <==> AnyThrows(md.entities, ectx, |md.entities|)
    ensures Matches(s, ectx, conv, fileExists, pipelineShader)
    ensures !thrown ==> Constructed(s, md, lctx, ectx, declared, conv, fileExists, pipelineShader)
    ensures dev.Env() == old(dev.Env())
    ensures old(dev.calls) <= dev.calls
  {
    thrown, declared := Populate(s, md.entities, ectx, fileExists, pipelineShader, conv, dev);
  }

  // ---------------------------------------------------------------- Scene.Load

  /** Scene.Main, the static main scene. */
  class SceneHolder {
    var main: Scene?

    /** A main scene is valid and has its main camera. */
    ghost predicate Valid()
      reads this, main, if main == null then {} else main.worlds
    {
      main != null ==> main.Valid() && main.mainCamera != null
    }

    /** No scene is loaded at start-up. */
    constructor ()
      ensures main == null && Valid()
    {
      main := null;
    }
  }

  /** The directory of a scene. */
  function ScenePath(sceneName: string): string {
    "Data/Lvl/" + sceneName
  }

  /** The metadata file of the scene in `basePath`. */
  function MetadataPath(basePath: string): string {
    basePath + "/Metadata.json"
  }

  /** The error Load logs when the metadata cannot be read. */
  function MetadataMessage(sceneName: string): string {
    "[Scene]: Couldn't load game scene \"" + sceneName + "\". Unable to load metadata!"
  }

  /** Main?.Clear(): the current main scene, if any, releases its entities and resources. */
  method ClearMain(holder: SceneHolder, dev: Device)
    requires holder.Valid()
    modifies holder.main, if holder.main == null then {} else holder.main.worlds, dev
    ensures holder.Valid()
    ensures holder.main != null ==>
      && holder.main.textures == [] && holder.main.models == [] && holder.main.renderables == []
      && holder.main.cameras == [] && holder.main.pointLights == []
    ensures old(holder.main) == null ==> dev.calls == old(dev.calls)
    ensures old(holder.main) != null ==>
      dev.calls == old(dev.calls)
        + old(WorldDisposals(holder.main.renderables, 0, holder.main.worlds, holder.main.renderModels))
        + old(TextureUnloads(Dict.Values(holder.main.textures)))
        + old(ModelUnloads(Dict.Values(holder.main.models)))
    ensures dev.Env() == old(dev.Env())
  {
    if holder.main != null {
      holder.main.Clear(dev);
    }
  }

  /** Main = scene: the holder points at the new scene, which assigning the holder's
      field does not change. */
  method Install(holder: SceneHolder, s: Scene, ghost md: SceneMetadata, ghost lctx: LoadContext, ghost ectx: EntityContext,
                 ghost declared: seq<CameraEntity>, conv: Converter, fileExists: string -> bool, pipelineShader: Option<Shader>)
    requires Constructed(s, md, lctx, ectx, declared, conv, fileExists, pipelineShader)
    modifies holder
    ensures holder.main == s && holder.Valid()
    ensures Constructed(s, md, lctx, ectx, declared, conv, fileExists, pipelineShader)
  {
    holder.main := s;
  }

  /** The replacement of the main scene once the metadata is read: Main?.Clear(), then
      Main = new Scene(metadata, basePath), which an exception from the constructor skips. */
  method Replace(holder: SceneHolder, md: SceneMetadata, basePath: string,
                 fileExists: string -> bool, cfg: Configuration.Config, pipelineShader: Option<Shader>, conv: Converter, dev: Device)
    returns (thrown: bool, ghost lctx: LoadContext, ghost ectx: EntityContext, ghost declared: seq<CameraEntity>)
    requires holder.Valid() && WellFormed(md)
    modifies holder, dev, holder.main, if holder.main == null then {} else holder.main.worlds
    ensures holder.Valid()
    ensures old(holder.main) != null ==>
      && old(holder.main).textures == [] && old(holder.main).models == [] && old(holder.main).renderables == []
      && old(holder.main).cameras == [] && old(holder.main).pointLights == []
    ensures thrown ==> holder.main == old(holder.main)
    ensures !thrown ==>
      && holder.main != null && fresh(holder.main) && holder.main.basePath == basePath
      && old(Describes(lctx, basePath, fileExists, cfg, pipelineShader, dev))
      && Constructed(holder.main, md, lctx, ectx, declared, conv, fileExists, pipelineShader)
    ensures dev.Env() == old(dev.Env())
    ensures old(holder.main) != null ==>
      old(dev.calls)
        + old(WorldDisposals(holder.main.renderables, 0, holder.main.worlds, holder.main.renderModels))
        + old(TextureUnloads(Dict.Values(holder.main.textures)))
        + old(ModelUnloads(Dict.Values(holder.main.models))) <= dev.calls
    ensures old(dev.calls) <= dev.calls
  {
    ClearMain(holder, dev);
    thrown, lctx, ectx, declared := Rebuild(holder, md, basePath, fileExists, cfg, pipelineShader, conv, dev);
  }

  /** The part of Replace after Main?.Clear(): Main = new Scene(metadata, basePath). */
  method Rebuild(holder: SceneHolder, md: SceneMetadata, basePath: string,
                 fileExists: string -> bool, cfg: Configuration.Config, pipelineShader: Option<Shader>, conv: Converter, dev: Device)
    returns (thrown: bool, ghost lctx: LoadContext, ghost ectx: EntityContext, ghost declared: seq<CameraEntity>)
    requires holder.Valid() && WellFormed(md)
    modifies holder, dev
    ensures holder.Valid()
    ensures thrown ==> holder.main == old(holder.main)
    ensures !thrown ==>
      && holder.main != null && fresh(holder.main) && holder.main.basePath == basePath
      && Describes(lctx, basePath, fileExists, cfg, pipelineShader, dev)
      && Constructed(holder.main, md, lctx, ectx, declared, conv, fileExists, pipelineShader)
    ensures dev.Env() == old(dev.Env())
    ensures old(dev.calls) <= dev.calls
  {
    var s;
    s, thrown, lctx, ectx, declared := Create(md, basePath, fileExists, cfg, pipelineShader, conv, dev);
    if !thrown {
      Install(holder, s, md, lctx, ectx, declared, conv, fileExists, pipelineShader);
    }
  }

  /** Load(sceneName): reads Data/Lvl/<name>/Metadata.json (`metadataOf`, None when the
      file is missing or does not parse); without metadata, logs an error and keeps the
      main scene; otherwise clears the current main scene, if any, and makes a newly
      constructed scene the main one. An exception from the constructor escapes and
      leaves the cleared scene as the main one; otherwise the new main scene holds the
      fallbacks and the resources kept from the metadata, and is settled on the
      metadata's entities. */
  method Load(holder: SceneHolder, sceneName: string, metadataOf: string -> Option<SceneMetadata>,
              fileExists: string -> bool, cfg: Configuration.Config, pipelineShader: Option<Shader>, conv: Converter, dev: Device)
    returns (thrown: bool, ghost lctx: LoadContext, ghost ectx: EntityContext, ghost declared: seq<CameraEntity>)
    requires holder.Valid()
    requires var md := metadataOf(MetadataPath(ScenePath(sceneName))); md.Some? ==> WellFormed(md.value)
    modifies holder, dev, holder.main, if holder.main == null then {} else holder.main.worlds
    ensures holder.Valid()
    ensures metadataOf(MetadataPath(ScenePath(sceneName))).None? ==>
      && !thrown && holder.main == old(holder.main)
      && dev.calls == old(dev.calls) + [TraceLog(LogError, MetadataMessage(sceneName))]
    ensures metadataOf(MetadataPath(ScenePath(sceneName))).Some? ==>
      var md := metadataOf(MetadataPath(ScenePath(sceneName))).value;
      && (old(holder.main) != null ==>
            && old(holder.main).textures == [] && old(holder.main).models == [] && old(holder.main).renderables == []
            && old(holder.main).cameras == [] && old(holder.main).pointLights == [])
      && (thrown ==> holder.main == old(holder.main))
      && (!thrown ==>
            && holder.main != null && fresh(holder.main) && holder.main.basePath == ScenePath(sceneName)
            && old(Describes(lctx, ScenePath(sceneName), fileExists, cfg, pipelineShader, dev))
            && Constructed(holder.main, md, lctx, ectx, declared, conv, fileExists, pipelineShader))
    ensures dev.Env() == old(dev.Env())
    ensures metadataOf(MetadataPath(ScenePath(sceneName))).Some? && old(holder.main) != null ==>
      old(dev.calls)
        + old(WorldDisposals(holder.main.renderables, 0, holder.main.worlds, holder.main.renderModels))
        + old(TextureUnloads(Dict.Values(holder.main.textures)))
        + old(ModelUnloads(Dict.Values(holder.main.models))) <= dev.calls
    ensures old(dev.calls) <= dev.calls
  {
    var basePath := ScenePath(sceneName);
    var metadata := metadataOf(MetadataPath(basePath));
    if metadata.None? {
      dev.Log(LogError, MetadataMessage(sceneName));
      thrown := false;
      lctx := LoadContext(basePath, fileExists, dev.imageSize, dev.modelShape, dev.mipmapLevels, dev.defaultShader,
                          cfg.GetBool("graphic:mipmaps"), cfg.GetFilter("graphic:filtering"), pipelineShader);
      ectx, declared := EntityContext([], [], conv, basePath, fileExists, pipelineShader, map[]), [];
      return;
    }
    thrown, lctx, ectx, declared := Replace(holder, metadata.value, basePath, fileExists, cfg, pipelineShader, conv, dev);
  }
}
