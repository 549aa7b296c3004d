/** Core/Scene.cs: the game scene, its resource tables and entity sets, and the
    per-frame iteration over them. Dictionaries are association lists in insertion
    order; a HashSet is a sequence without repetitions, enumerated in insertion order
    (the scene never removes single elements). Loading a scene is in SceneLoading. */
module Scenes {
  import opened Common
  import Dict
  import opened Raylib
  import opened Resources
  import opened Entities
  import opened Interfaces
  import CollectionExtensions
  import Gui

  // ---------------------------------------------------------------- what the frames depend on

  /** A renderable whose Render calls depend only on objects among `ws` and `ms`: a world
      is among `ws` with its chunk models among `ms`; an entity's model is among `ms`. */
  ghost predicate ReadyIn(r: Renderable, ws: set<WorldEntity>, ms: set<ModelResource>)
    reads ws
  {
    match r
    case WorldRenderable(w) => w in ws && w.Valid() && w.models <= ms
    case StaticRenderable(e) => e.model != null ==> e.model in ms
    case DynamicRenderable(d) => d.base.model != null ==> d.base.model in ms
  }

  ghost predicate AllReady(rs: seq<Renderable>, ws: set<WorldEntity>, ms: set<ModelResource>)
    reads ws
  {
    forall k :: 0 <= k < |rs| ==> ReadyIn(rs[k], ws, ms)
  }

  /** What rendering the renderables from the i-th on, in enumeration order, draws. */
  ghost function RenderablesCalls(rs: seq<Renderable>, i: nat, ws: set<WorldEntity>, ms: set<ModelResource>): seq<GpuCall>
    requires i <= |rs| && AllReady(rs, ws, ms)
    reads ws, ms
    decreases |rs| - i
  {
    if i == |rs| then []
    else
      assert ReadyIn(rs[i], ws, ms);
      RenderCalls(rs[i]) + RenderablesCalls(rs, i + 1, ws, ms)
  }

  /** What disposing the renderables from the i-th on issues: each world unloads its
      chunk models; nothing else among the renderables is disposable. */
  ghost function WorldDisposals(rs: seq<Renderable>, i: nat, ws: set<WorldEntity>, ms: set<ModelResource>): seq<GpuCall>
    requires i <= |rs| && AllReady(rs, ws, ms)
    reads ws, ms
    decreases |rs| - i
  {
    if i == |rs| then []
    else
      assert ReadyIn(rs[i], ws, ms);
      (if rs[i].WorldRenderable? then UnloadCalls(rs[i].world.chunks, |rs[i].world.chunks|, rs[i].world.models) else [])
      + WorldDisposals(rs, i + 1, ws, ms)
  }

  /** The cameras as the IUpdatable set sees them. */
  function AsUpdatables(cs: seq<CameraEntity>): (r: seq<Updatable>)
    ensures |r| == |cs| && forall k :: 0 <= k < |cs| ==> r[k] == CameraUpdatable(cs[k])
  {
    seq(|cs|, k requires 0 <= k < |cs| => CameraUpdatable(cs[k]))
  }

  /** The cameras' current views, in enumeration order. */
  function Views(cs: seq<CameraEntity>): (r: seq<Camera3D>)
    reads cs
    ensures |r| == |cs| && forall k :: 0 <= k < |cs| ==> r[k] == cs[k].camera
  {
    seq(|cs|, k requires 0 <= k < |cs| reads cs => cs[k].camera)
  }

  /** The UpdateCamera calls that step cameras with these views, in order. */
  function CameraSteps(views: seq<Camera3D>): (r: seq<GpuCall>)
    ensures |r| == |views| && forall k :: 0 <= k < |views| ==> r[k] == UpdateCamera(views[k])
  {
    seq(|views|, k requires 0 <= k < |views| => UpdateCamera(views[k]))
  }

  /** The unload calls of texture resources, in order. */
  function TextureUnloads(ts: seq<TextureResource>): (r: seq<GpuCall>)
    reads ts
    ensures |r| == |ts| && forall k :: 0 <= k < |ts| ==> r[k] == UnloadTexture(ts[k].texture)
  {
    seq(|ts|, k requires 0 <= k < |ts| reads ts => UnloadTexture(ts[k].texture))
  }

  /** The unload calls of model resources, in order. */
  function ModelUnloads(ms: seq<ModelResource>): (r: seq<GpuCall>)
    reads ms
    ensures |r| == |ms| && forall k :: 0 <= k < |ms| ==> r[k] == UnloadModel(ms[k].model)
  {
    seq(|ms|, k requires 0 <= k < |ms| reads ms => UnloadModel(ms[k].model))
  }

  /** `element is IDisposable` for the element types of the scene's collections: among
      the renderables only worlds are disposable; every texture and model resource is;
      cameras, point lights and updatables (cameras) are not. */
  function RenderableAsDisposable(r: Renderable): Option<Disposable> {
    if r.WorldRenderable? then Some(WorldDisposable(r.world)) else None
  }

  function TextureAsDisposable(t: TextureResource): Option<Disposable> {
    Some(TextureDisposable(t))
  }

  function ModelAsDisposable(m: ModelResource): Option<Disposable> {
    Some(ModelDisposable(m))
  }

  function NotDisposable<T>(x: T): Option<Disposable> {
    None
  }

  // ---------------------------------------------------------------- the scene

  class Scene {
    /** BasePath: the scene's directory. */
    const basePath: string
    var textures: Dict.Dict<string, TextureResource>
    var models: Dict.Dict<string, ModelResource>
    var renderables: seq<Renderable>
    var updatables: seq<Updatable>
    var pointLights: seq<PointLightEntity>
    var cameras: seq<CameraEntity>
    /** MainCamera; set once the constructor has finished. */
    var mainCamera: CameraEntity?

    /** The worlds among the renderables, and the model resources the renderables draw. */
    ghost var worlds: set<WorldEntity>
    ghost var renderModels: set<ModelResource>

    /** The tables are dictionaries (no key twice) and hold each texture resource once;
        the four sets hold each element once; the updatables are exactly the cameras, in
        the same order; every renderable is ready to render. */
    ghost predicate Valid()
      reads this, worlds
    {
      && Dict.Valid(textures) && Dict.Valid(models)
      && (forall i, j :: 0 <= i < j < |textures| ==> textures[i].1 != textures[j].1)
      && NoDup(renderables) && NoDup(pointLights) && NoDup(cameras)
      && updatables == AsUpdatables(cameras)
      && AllReady(renderables, worlds, renderModels)
    }

    /** What disposing the scene issues: each world among the renderables unloads its
        chunk models, then every texture and then every model of the tables is unloaded. */
    /** The scene before LoadResources: empty tables and sets. */
    constructor Empty(basePath: string)
      ensures this.basePath == basePath && textures == [] && models == []
      ensures renderables == [] && updatables == [] && pointLights == [] && cameras == [] && mainCamera == null
      ensures worlds == {} && renderModels == {} && Valid()
    {
      this.basePath := basePath;
      textures, models := [], [];
      renderables, updatables, pointLights, cameras := [], [], [], [];
      mainCamera := null;
      worlds, renderModels := {}, {};
    }

    /** Render: every renderable renders, in enumeration order. */
    method Render(dev: Device)
      requires Valid()
      modifies dev
      ensures dev.calls == old(dev.calls) + old(RenderablesCalls(renderables, 0, worlds, renderModels))
      ensures dev.state == old(dev.state) && dev.Env() == old(dev.Env()) && dev.nextHandle == old(dev.nextHandle)
    {
      RenderAll(renderables, worlds, renderModels, dev);
    }

    /** Update(dt): every updatable updates, in enumeration order; the updatables are the
        cameras, which each take one step unless GUI mode is on. */
    method Update(dt: real, gui: Gui.GuiMode, dev: Device)
      requires Valid()
      modifies cameras, dev
      ensures forall k :: 0 <= k < |cameras| ==>
        cameras[k].camera == if gui.IsGuiMode() then old(cameras[k].camera) else dev.cameraStep(old(cameras[k].camera))
      ensures dev.calls == old(dev.calls) + (if gui.IsGuiMode() then [] else CameraSteps(old(Views(cameras))))
      ensures dev.state == old(dev.state) && dev.Env() == old(dev.Env()) && dev.nextHandle == old(dev.nextHandle)
    {
      UpdateAll(updatables, cameras, dt, gui, dev);
    }

    /** Clear: point lights, cameras, renderables, updatables, textures and models are
        emptied in that order, each after disposing its disposable elements: each world
        among the renderables unloads its chunk models, then every texture and then every
        model of the tables is unloaded. */
    method Clear(dev: Device)
      requires Valid()
      modifies this`textures, this`models, this`renderables, this`updatables, this`pointLights, this`cameras, worlds`chunks, dev
      ensures textures == [] && models == [] && renderables == [] && updatables == [] && pointLights == [] && cameras == []
      ensures dev.calls == old(dev.calls)
        + old(WorldDisposals(renderables, 0, worlds, renderModels))
        + old(TextureUnloads(Dict.Values(textures)))
        + old(ModelUnloads(Dict.Values(models)))
      ensures forall k :: 0 <= k < |old(renderables)| && old(renderables)[k].WorldRenderable? ==>
        old(renderables)[k].world.chunks == []
      ensures Valid() && dev.Env() == old(dev.Env()) && dev.nextHandle == old(dev.nextHandle)
    {
      ClearInOrder(dev);
    }

    /** The body of Clear, which needs of the scene only that its renderables are a set
        ready to be disposed. */
    method ClearInOrder(dev: Device)
      requires NoDup(renderables) && AllReady(renderables, worlds, renderModels)
      modifies this`textures, this`models, this`renderables, this`updatables, this`pointLights, this`cameras, worlds`chunks, dev
      ensures textures == [] && models == [] && renderables == [] && updatables == [] && pointLights == [] && cameras == []
      ensures dev.calls == old(dev.calls)
        + old(WorldDisposals(renderables, 0, worlds, renderModels))
        + old(TextureUnloads(Dict.Values(textures)))
        + old(ModelUnloads(Dict.Values(models)))
      ensures forall k :: 0 <= k < |old(renderables)| && old(renderables)[k].WorldRenderable? ==>
        old(renderables)[k].world.chunks == []
      ensures dev.Env() == old(dev.Env()) && dev.nextHandle == old(dev.nextHandle)
    {
      ghost var ts, ms := Dict.Values(textures), Dict.Values(models);
      ghost var textureCalls, modelCalls := TextureUnloads(ts), ModelUnloads(ms);
      ClearEntities(dev);
      // Clearing the entities touches no resource.
      assert TextureUnloads(ts) == textureCalls;
      assert ModelUnloads(ms) == modelCalls;
      ClearResources(dev);
    }

    /** The resource tables' part of Clear: the textures, then the models. */
    method ClearResources(dev: Device)
      modifies this`textures, this`models, dev
      ensures textures == [] && models == []
      ensures dev.calls == old(dev.calls) + old(TextureUnloads(Dict.Values(textures))) + old(ModelUnloads(Dict.Values(models)))
      ensures dev.Env() == old(dev.Env()) && dev.nextHandle == old(dev.nextHandle)
    {
      ghost var modelCalls := ModelUnloads(Dict.Values(models));
      ClearTextures(dev);
      assert ModelUnloads(Dict.Values(models)) == modelCalls;
      ClearModels(dev);
    }

    /** The entity collections' part of Clear: point lights, cameras, renderables and
        updatables, in that order; only the worlds among the renderables are disposable. */
    method ClearEntities(dev: Device)
      requires NoDup(renderables) && AllReady(renderables, worlds, renderModels)
      modifies this`renderables, this`updatables, this`pointLights, this`cameras, worlds`chunks, dev
      ensures renderables == [] && updatables == [] && pointLights == [] && cameras == []
      ensures dev.calls == old(dev.calls) + old(WorldDisposals(renderables, 0, worlds, renderModels))
      ensures forall k :: 0 <= k < |old(renderables)| && old(renderables)[k].WorldRenderable? ==>
        old(renderables)[k].world.chunks == []
      ensures dev.Env() == old(dev.Env()) && dev.nextHandle == old(dev.nextHandle)
    {
      // Point lights, cameras and updatables hold nothing IDisposable, so ClearWithDispose
      // disposes nothing in them (CollectionExtensions.NothingDisposable) and only clears.
      pointLights, cameras := [], [];
      ClearRenderables(dev);
      updatables := [];
    }

    /** The renderables' part of Clear: the worlds dispose their chunks. */
    method ClearRenderables(dev: Device)
      requires NoDup(renderables) && AllReady(renderables, worlds, renderModels)
      modifies this`renderables, worlds`chunks, dev
      ensures renderables == []
      ensures dev.calls == old(dev.calls) + old(WorldDisposals(renderables, 0, worlds, renderModels))
      ensures forall k :: 0 <= k < |old(renderables)| && old(renderables)[k].WorldRenderable? ==>
        old(renderables)[k].world.chunks == []
      ensures dev.Env() == old(dev.Env()) && dev.nextHandle == old(dev.nextHandle)
    {
      RenderablesReady(renderables, worlds, renderModels);
      DisposalsOfDistinctWorlds(renderables, 0, worlds, renderModels);
      ghost var rs := renderables;
      renderables := CollectionExtensions.ClearWithDispose(renderables, RenderableAsDisposable, renderModels, dev);
      forall k | 0 <= k < |rs| && rs[k].WorldRenderable?
        ensures rs[k].world in CollectionExtensions.WorldsIn(rs, RenderableAsDisposable)
      {
        assert RenderableAsDisposable(rs[k]) == Some(WorldDisposable(rs[k].world));
      }
    }

    /** The textures' part of Clear: every texture resource is unloaded, in order. */
    method ClearTextures(dev: Device)
      modifies this`textures, dev
      ensures textures == []
      ensures dev.calls == old(dev.calls) + old(TextureUnloads(Dict.Values(textures)))
      ensures dev.Env() == old(dev.Env()) && dev.nextHandle == old(dev.nextHandle)
    {
      ghost var ts := Dict.Values(textures);
      NoWorlds(ts, TextureAsDisposable);
      CollectionExtensions.TexturesUnloadedInOrder(ts, 0, TextureAsDisposable, {});
      assert CollectionExtensions.ClearCalls(ts, 0, TextureAsDisposable, {}) == TextureUnloads(ts);
      textures := CollectionExtensions.ClearValuesWithDispose(textures, TextureAsDisposable, {}, dev);
    }

    /** The models' part of Clear: every model resource is unloaded, in order. */
    method ClearModels(dev: Device)
      modifies this`models, dev
      ensures models == []
      ensures dev.calls == old(dev.calls) + old(ModelUnloads(Dict.Values(models)))
      ensures dev.Env() == old(dev.Env()) && dev.nextHandle == old(dev.nextHandle)
    {
      ghost var ms := Dict.Values(models);
      NoWorlds(ms, ModelAsDisposable);
      CollectionExtensions.ModelsUnloadedInOrder(ms, 0, ModelAsDisposable, {});
      assert CollectionExtensions.ClearCalls(ms, 0, ModelAsDisposable, {}) == ModelUnloads(ms);
      models := CollectionExtensions.ClearValuesWithDispose(models, ModelAsDisposable, {}, dev);
    }
  }

  /** Renderables ready in the scene's sense are ready to be disposed, and their
      worlds are among `ws`. */
  lemma RenderablesReady(rs: seq<Renderable>, ws: set<WorldEntity>, ms: set<ModelResource>)
    requires AllReady(rs, ws, ms)
    ensures CollectionExtensions.ReadyFrom(rs, 0, RenderableAsDisposable, ms)
    ensures CollectionExtensions.WorldsIn(rs, RenderableAsDisposable) <= ws
  {
    forall w | w in CollectionExtensions.WorldsIn(rs, RenderableAsDisposable)
      ensures w in ws
    {
      var k :| 0 <= k < |rs| && RenderableAsDisposable(rs[k]).Some?
               && RenderableAsDisposable(rs[k]).value.WorldDisposable? && RenderableAsDisposable(rs[k]).value.world == w;
      assert ReadyIn(rs[k], ws, ms);
    }
    forall k | 0 <= k < |rs|
      ensures CollectionExtensions.ItemReady(rs, k, RenderableAsDisposable, ms)
    {
      assert ReadyIn(rs[k], ws, ms);
    }
  }

  /** The renderables are a set, so no world is listed twice and ClearWithDispose
      disposes every world among them exactly once. */
  lemma {:induction false} DisposalsOfDistinctWorlds(rs: seq<Renderable>, i: nat, ws: set<WorldEntity>, ms: set<ModelResource>)
    requires i <= |rs| && NoDup(rs) && AllReady(rs, ws, ms)
    requires CollectionExtensions.ReadyFrom(rs, i, RenderableAsDisposable, ms)
    ensures CollectionExtensions.ClearCalls(rs, i, RenderableAsDisposable, ms) == WorldDisposals(rs, i, ws, ms)
    decreases |rs| - i
  {
    if i < |rs| {
      assert ReadyIn(rs[i], ws, ms);
      assert CollectionExtensions.ReadyFrom(rs, i + 1, RenderableAsDisposable, ms);
      DisposalsOfDistinctWorlds(rs, i + 1, ws, ms);
    }
  }

  /** A collection in which nothing is a world: every element is ready to be disposed,
      and disposing changes no world. */
  lemma NoWorlds<T>(items: seq<T>, asDisposable: T -> Option<Disposable>)
    requires forall k :: 0 <= k < |items| ==> asDisposable(items[k]).None? || !asDisposable(items[k]).value.WorldDisposable?
    ensures CollectionExtensions.ReadyFrom(items, 0, asDisposable, {})
    ensures CollectionExtensions.WorldsIn(items, asDisposable) == {}
  {
  }

  /** The loop of Scene.Render over the renderables. */
  method RenderAll(rs: seq<Renderable>, ghost ws: set<WorldEntity>, ghost ms: set<ModelResource>, dev: Device)
    requires AllReady(rs, ws, ms)
    modifies dev
    ensures dev.calls == old(dev.calls) + old(RenderablesCalls(rs, 0, ws, ms))
    ensures dev.state == old(dev.state) && dev.Env() == old(dev.Env()) && dev.nextHandle == old(dev.nextHandle)
  {
    ghost var total := RenderablesCalls(rs, 0, ws, ms);
    var i := 0;
    while i < |rs|
      invariant 0 <= i <= |rs|
      invariant old(dev.calls) + total == dev.calls + RenderablesCalls(rs, i, ws, ms)
      invariant dev.state == old(dev.state) && dev.Env() == old(dev.Env()) && dev.nextHandle == old(dev.nextHandle)
    {
      assert ReadyIn(rs[i], ws, ms);
      ghost var item := RenderCalls(rs[i]);
      ghost var rest := RenderablesCalls(rs, i + 1, ws, ms);
      ghost var before := dev.calls;
      Interfaces.Render(rs[i], dev);
      AppendAssoc(before, item, rest);
      i := i + 1;
    }
  }

  /** Stepping one more camera appends its UpdateCamera call. */
  lemma CameraStepsGrow(views: seq<Camera3D>, i: nat)
    requires i < |views|
    ensures CameraSteps(views[..i + 1]) == CameraSteps(views[..i]) + [UpdateCamera(views[i])]
  {
    assert CameraSteps(views[..i + 1]) == CameraSteps(views[..i]) + [UpdateCamera(views[i])];
  }

  /** The loop of Scene.Update over the updatables, which are the cameras `cs`. */
  method UpdateAll(us: seq<Updatable>, cs: seq<CameraEntity>, dt: real, gui: Gui.GuiMode, dev: Device)
    requires us == AsUpdatables(cs) && NoDup(cs)
    modifies cs, dev
    ensures forall k :: 0 <= k < |cs| ==>
      cs[k].camera == if gui.IsGuiMode() then old(cs[k].camera) else dev.cameraStep(old(cs[k].camera))
    ensures dev.calls == old(dev.calls) + (if gui.IsGuiMode() then [] else CameraSteps(old(Views(cs))))
    ensures dev.state == old(dev.state) && dev.Env() == old(dev.Env()) && dev.nextHandle == old(dev.nextHandle)
  {
    ghost var views := Views(cs);
    ghost var guiMode := gui.IsGuiMode();
    var i := 0;
    while i < |us|
      invariant 0 <= i <= |us|
      invariant forall k :: 0 <= k < |cs| ==>
        cs[k].camera == if k < i && !guiMode then dev.cameraStep(views[k]) else views[k]
      invariant dev.calls == old(dev.calls) + (if guiMode then [] else CameraSteps(views[..i]))
      invariant dev.state == old(dev.state) && dev.Env() == old(dev.Env()) && dev.nextHandle == old(dev.nextHandle)
    {
      Interfaces.Update(us[i], dt, gui, dev);
      CameraStepsGrow(views, i);
      i := i + 1;
    }
    assert views[..i] == views;
  }
}
