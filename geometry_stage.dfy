/** Core/Rendering/GeometryStage.cs: the first pass of the deferred renderer. It draws
    the main scene through the main camera into a render buffer with four channels
    (diffuse, normal, specular, depth) and hands those channels on. */
module GeometryStages {
  import opened Common
  import Dict
  import opened Raylib
  import opened RenderBuffers
  import opened Scenes
  import opened SceneCreation
  import opened StageCommon

  /** The channels the stage registers, in registration order. */
  const GeometryChannels: seq<string> := ["diffuse", "normal", "specular", "depth"]

  /** What the constructor registers: the four channels with their pixel formats. */
  const GeometryRegistration: Channels := [
    ("diffuse", Registered(UncompressedR8G8B8A8)),
    ("normal", Registered(UncompressedR8G8B8)),
    ("specular", Registered(UncompressedR8G8B8)),
    ("depth", Registered(UncompressedR32))]

  const GeometryVertex := "Data/Shader/Geometry.vert"
  const GeometryFragment := "Data/Shader/Geometry.frag"

  /** The four channel names are distinct, so the buffer's Textures never throws. */
  lemma GeometryChannelsDistinct()
    ensures NoDup(GeometryChannels)
    ensures Dict.Keys(GeometryRegistration) == GeometryChannels
  {
    assert "diffuse"[0] != "normal"[0] && "diffuse"[0] != "specular"[0] && "diffuse"[1] != "depth"[1];
    assert "normal"[0] != "specular"[0] && "normal"[0] != "depth"[0];
    assert "specular"[1] != "depth"[1];
  }

  class GeometryStage {
    const shader: Shader
    const viewPosLocation: int
    const buffer: RenderBuffer

    /** The buffer holds exactly the four geometry channels, in registration order. */
    ghost predicate Valid()
      reads this, buffer
    {
      buffer.Valid() && Dict.Keys(buffer.textures) == GeometryChannels
    }

    /** GeometryStage(): loads the geometry shader, looks up viewPos and registers the
        four channels of a new render buffer. */
    constructor (dev: Device)
      modifies dev
      ensures fresh(buffer) && Valid()
      ensures shader == Shader(old(dev.nextHandle) + 1) && viewPosLocation == dev.shaderLocation(shader, "viewPos")
      ensures buffer.textures == GeometryRegistration
      ensures buffer.width == 0 && buffer.height == 0 && buffer.bufferId == 0
      ensures dev.calls == old(dev.calls) + [LoadShader(Some(GeometryVertex), GeometryFragment, shader)]
      ensures dev.state == old(dev.state) && dev.nextHandle == old(dev.nextHandle) + 1 && dev.Env() == old(dev.Env())
    {
      var s := dev.LoadShader(Some(GeometryVertex), GeometryFragment);
      shader := s;
      viewPosLocation := dev.shaderLocation(s, "viewPos");
      var b := new RenderBuffer();
      b.RegisterTexture("diffuse", UncompressedR8G8B8A8);
      b.RegisterTexture("normal", UncompressedR8G8B8);
      b.RegisterTexture("specular", UncompressedR8G8B8);
      b.RegisterTexture("depth", UncompressedR32);
      buffer := b;
      GeometryChannelsDistinct();
    }

    /** Render(values): with no main scene, an empty map and no drawing. Otherwise the
        camera position is uploaded as viewPos, and the scene is drawn inside the
        buffer's bracket and, within it, the camera's; the output is the buffer's four
        channels. The input map is not read. */
    method Render(values: Channels, holder: SceneHolder, dev: Device) returns (out: Channels)
      requires Valid() && holder.Valid()
      modifies buffer, dev
      ensures Valid() && holder.Valid()
      ensures holder.main == null ==> out == [] && dev.calls == old(dev.calls) && unchanged(buffer)
      ensures holder.main != null ==>
        && out == buffer.textures && Dict.Keys(out) == GeometryChannels
        && buffer.width == dev.screenWidth && buffer.height == dev.screenHeight
        && dev.calls == old(dev.calls)
          + [SetShaderValue(shader, viewPosLocation, UVec3(holder.main.mainCamera.camera.position))]
          + BeginCalls(old(buffer.textures), (old(buffer.width), old(buffer.height)), old(buffer.bufferId),
                       (dev.screenWidth, dev.screenHeight), old(dev.nextHandle), dev.framebufferComplete)
          + old(SceneDraw(holder))
          + EndCalls
      ensures dev.Env() == old(dev.Env())
    {
      var scene := holder.main;
      if scene == null {
        return [];
      }
      dev.Issue(SetShaderValue(shader, viewPosLocation, UVec3(scene.mainCamera.camera.position)));
      Pass(holder, dev);
      GeometryChannelsDistinct();
      var textures := buffer.Textures();
      out := textures.value;
    }

    /** The drawing part of Render: the scene drawn inside the buffer's bracket. */
    method Pass(holder: SceneHolder, dev: Device)
      requires Valid() && holder.Valid() && holder.main != null
      modifies buffer, dev
      ensures Valid()
      ensures buffer.width == dev.screenWidth && buffer.height == dev.screenHeight
      ensures dev.calls == old(dev.calls)
        + BeginCalls(old(buffer.textures), (old(buffer.width), old(buffer.height)), old(buffer.bufferId),
                     (dev.screenWidth, dev.screenHeight), old(dev.nextHandle), dev.framebufferComplete)
        + old(SceneDraw(holder))
        + EndCalls
      ensures dev.Env() == old(dev.Env())
    {
      buffer.BeginBufferMode(dev);
      DrawScene(holder, dev);
      buffer.EndBufferMode(dev);
    }
  }
}
