/** Core/Rendering/ForwardStage.cs: a single-pass alternative to the deferred stages.
    It draws the main scene through the main camera straight to the current target with
    raylib's default material shader, and hands nothing on. */
module ForwardStages {
  import opened Common
  import opened Raylib
  import opened RenderBuffers
  import opened SceneCreation
  import opened StageCommon

  class ForwardStage {
    const shader: Shader

    /** ForwardStage(): the shader of raylib's default material. */
    constructor (dev: Device)
      ensures shader == dev.defaultShader
    {
      shader := dev.defaultShader;
    }

    /** Render(values): the input is not read and the output is always empty. With a
        main scene, its renderables are drawn in order inside the main camera's 3D mode;
        without one nothing is drawn. */
    method Render(values: Channels, holder: SceneHolder, dev: Device) returns (out: Channels)
      requires holder.Valid()
      modifies dev
      ensures out == []
      ensures holder.main == null ==> dev.calls == old(dev.calls) && dev.state == old(dev.state)
      ensures holder.main != null ==> dev.calls == old(dev.calls) + old(SceneDraw(holder)) && dev.state.mode3D == None
      ensures dev.nextHandle == old(dev.nextHandle) && dev.Env() == old(dev.Env())
    {
      out := [];
      if holder.main == null {
        return;
      }
      DrawScene(holder, dev);
    }
  }
}
