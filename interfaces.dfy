/** The interfaces the scene stores its objects under: IRenderable, IUpdatable and
    IDisposable. Each is a tagged union of the classes that implement it, and each
    interface method dispatches on the tag. */
module Interfaces {
  import opened Common
  import opened Raylib
  import opened Resources
  import opened Entities
  import Gui

  // ---------------------------------------------------------------- IRenderable

  /** The IRenderable classes: StaticEntity, DynamicEntity (through its StaticEntity
      part) and WorldEntity. */
  datatype Renderable =
    | StaticRenderable(entity: StaticEntity)
    | DynamicRenderable(dynamic: DynamicEntity)
    | WorldRenderable(world: WorldEntity)

  /** A world renders only when its chunk models are known. */
  ghost predicate RenderReady(r: Renderable)
    reads if r.WorldRenderable? then {r.world} else {}
  {
    r.WorldRenderable? ==> r.world.Valid()
  }

  /** The objects Render's calls depend on: the entity's model resource, or the world
      and its chunks' model resources. */
  ghost function RenderFootprint(r: Renderable): set<object>
    reads if r.WorldRenderable? then {r.world} else {}
  {
    match r
    case StaticRenderable(e) => if e.model == null then {} else {e.model}
    case DynamicRenderable(d) => if d.base.model == null then {} else {d.base.model}
    case WorldRenderable(w) => {w} + w.models
  }

  /** What Render draws. */
  ghost function RenderCalls(r: Renderable): seq<GpuCall>
    requires RenderReady(r)
    reads if r.WorldRenderable? then {r.world} else {}, RenderFootprint(r)
  {
    match r
    case StaticRenderable(e) => e.RenderCalls()
    case DynamicRenderable(d) => d.RenderCalls()
    case WorldRenderable(w) => w.RenderCalls()
  }

  /** IRenderable.Render. */
  method Render(r: Renderable, dev: Device)
    requires RenderReady(r)
    modifies dev
    ensures dev.calls == old(dev.calls) + old(RenderCalls(r))
    ensures dev.state == old(dev.state) && dev.Env() == old(dev.Env()) && dev.nextHandle == old(dev.nextHandle)
  {
    match r
    case StaticRenderable(e) => e.Render(dev);
    case DynamicRenderable(d) => d.Render(dev);
    case WorldRenderable(w) => w.Render(dev);
  }

  // ---------------------------------------------------------------- IUpdatable

  /** The IUpdatable classes: CameraEntity and DynamicEntity. */
  datatype Updatable =
    | CameraUpdatable(camera: CameraEntity)
    | DynamicUpdatable(dynamic: DynamicEntity)

  /** The object Update may change. */
  function UpdateFrame(u: Updatable): set<CameraEntity> {
    if u.CameraUpdatable? then {u.camera} else {}
  }

  /** The calls Update(dt) makes: a camera steps unless GUI mode is on; a dynamic entity
      does nothing. */
  function UpdateCalls(u: Updatable, guiMode: bool): seq<GpuCall>
    reads UpdateFrame(u)
  {
    if u.CameraUpdatable? && !guiMode then [UpdateCamera(u.camera.camera)] else []
  }

  /** IUpdatable.Update. */
  method Update(u: Updatable, dt: real, gui: Gui.GuiMode, dev: Device)
    modifies UpdateFrame(u)`camera, dev
    ensures dev.calls == old(dev.calls) + old(UpdateCalls(u, gui.IsGuiMode()))
    ensures u.CameraUpdatable? ==> u.camera.camera == if gui.IsGuiMode() then old(u.camera.camera) else dev.cameraStep(old(u.camera.camera))
    ensures dev.state == old(dev.state) && dev.Env() == old(dev.Env()) && dev.nextHandle == old(dev.nextHandle)
  {
    match u
    case CameraUpdatable(c) => c.Update(dt, gui, dev);
    case DynamicUpdatable(d) => d.Update(dt);
  }

  // ---------------------------------------------------------------- IDisposable

  /** The IDisposable classes: TextureResource, ModelResource and WorldEntity. */
  datatype Disposable =
    | TextureDisposable(texture: TextureResource)
    | ModelDisposable(model: ModelResource)
    | WorldDisposable(world: WorldEntity)

  /** A world disposes only when its chunk models are known. */
  ghost predicate DisposeReady(d: Disposable)
    reads if d.WorldDisposable? then {d.world} else {}
  {
    d.WorldDisposable? ==> d.world.Valid()
  }

  /** The objects Dispose's calls depend on. */
  ghost function DisposeFootprint(d: Disposable): set<object>
    reads if d.WorldDisposable? then {d.world} else {}
  {
    match d
    case TextureDisposable(t) => {t}
    case ModelDisposable(m) => {m}
    case WorldDisposable(w) => {w} + w.models
  }

  /** The calls Dispose makes: unload the texture, unload the model, or unload every
      chunk model of the world. */
  ghost function DisposeCalls(d: Disposable): seq<GpuCall>
    requires DisposeReady(d)
    reads if d.WorldDisposable? then {d.world} else {}, DisposeFootprint(d)
  {
    match d
    case TextureDisposable(t) => t.DisposeCalls()
    case ModelDisposable(m) => m.DisposeCalls()
    case WorldDisposable(w) => UnloadCalls(w.chunks, |w.chunks|, w.models)
  }

  /** The world Dispose changes, if any. */
  function DisposedWorld(d: Disposable): set<WorldEntity> {
    if d.WorldDisposable? then {d.world} else {}
  }

  /** IDisposable.Dispose. */
  method Dispose(d: Disposable, dev: Device)
    requires DisposeReady(d)
    modifies DisposedWorld(d)`chunks, dev
    ensures dev.calls == old(dev.calls) + old(DisposeCalls(d))
    ensures d.WorldDisposable? ==> d.world.chunks == [] && d.world.Valid()
    ensures dev.Env() == old(dev.Env()) && dev.nextHandle == old(dev.nextHandle)
  {
    match d
    case TextureDisposable(t) => t.Dispose(dev);
    case ModelDisposable(m) => m.Dispose(dev);
    case WorldDisposable(w) => w.Dispose(dev);
  }
}
