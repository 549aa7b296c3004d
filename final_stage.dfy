/** Core/Rendering/FinalStage.cs: the composition pass. It clears the screen and, in the
    final shader's mode, draws the diffuse channel once with the diffuse and lighting
    channels bound as the shader's two textures. It hands nothing on. */
module FinalStages {
  import opened Common
  import Dict
  import opened Raylib
  import opened RenderBuffers
  import opened StageCommon

  const FinalFragment := "Data/Shader/Final.frag"

  /** The names the stage reads from its input, in order. */
  const FinalInputs: seq<string> := ["diffuse", "lighting"]

  /** The source rectangle of the draw: the whole texture, with the height negated so
      the render texture is drawn the right way up. */
  function FlippedSource(t: Texture2D): Rect {
    Rect(0.0, 0.0, t.width as real, -(t.height as real))
  }

  /** The calls of Render, given the textures its lookups found (both, or those before
      the first missing name). */
  function CompositeCalls(shader: Shader, diffuseLocation: int, lightingLocation: int, ts: seq<Texture2D>): seq<GpuCall>
    requires |ts| <= |FinalInputs|
  {
    [ClearBackground(Blank), BeginShaderMode(shader)]
    + (if |ts| >= 1 then [SetShaderValueTexture(shader, diffuseLocation, ts[0])] else [])
    + (if |ts| == 2
       then [SetShaderValueTexture(shader, lightingLocation, ts[1]), DrawTextureRec(ts[0], FlippedSource(ts[0]), White), EndShaderMode]
       else [])
  }

  /** The calls for each number of textures found, written out. */
  lemma CompositeCases(shader: Shader, diffuseLocation: int, lightingLocation: int, ts: seq<Texture2D>)
    requires |ts| <= |FinalInputs|
    ensures |ts| == 0 ==> CompositeCalls(shader, diffuseLocation, lightingLocation, ts) == [ClearBackground(Blank), BeginShaderMode(shader)]
    ensures |ts| == 1 ==>
      (CompositeCalls(shader, diffuseLocation, lightingLocation, ts)
       == [ClearBackground(Blank), BeginShaderMode(shader)] + [SetShaderValueTexture(shader, diffuseLocation, ts[0])])
    ensures |ts| == 2 ==>
      (CompositeCalls(shader, diffuseLocation, lightingLocation, ts)
       == [ClearBackground(Blank), BeginShaderMode(shader)] + [SetShaderValueTexture(shader, diffuseLocation, ts[0])]
          + [SetShaderValueTexture(shader, lightingLocation, ts[1])] + [DrawTextureRec(ts[0], FlippedSource(ts[0]), White), EndShaderMode])
  {
  }

  /** With both channels present, the screen is cleared first, and the shader mode
      brackets the two texture uploads (diffuse, then lighting) and exactly one draw:
      the diffuse texture, flipped, untinted. */
  lemma CompositeShape(shader: Shader, diffuseLocation: int, lightingLocation: int, ts: seq<Texture2D>)
    requires |ts| == |FinalInputs|
    ensures var p := CompositeCalls(shader, diffuseLocation, lightingLocation, ts);
      && |p| == 6
      && p[0] == ClearBackground(Blank)
      && (forall k :: 0 <= k < |p| ==> (p[k] == BeginShaderMode(shader) <==> k == 1))
      && (forall k :: 0 <= k < |p| ==> (p[k] == EndShaderMode <==> k == 5))
      && p[2] == SetShaderValueTexture(shader, diffuseLocation, ts[0])
      && p[3] == SetShaderValueTexture(shader, lightingLocation, ts[1])
      && (forall k :: 0 <= k < |p| ==> (p[k].DrawTextureRec? <==> k == 4))
      && p[4] == DrawTextureRec(ts[0], Rect(0.0, 0.0, ts[0].width as real, -(ts[0].height as real)), White)
  {
    var p := CompositeCalls(shader, diffuseLocation, lightingLocation, ts);
    assert p == [ClearBackground(Blank), BeginShaderMode(shader), SetShaderValueTexture(shader, diffuseLocation, ts[0]),
                 SetShaderValueTexture(shader, lightingLocation, ts[1]), DrawTextureRec(ts[0], FlippedSource(ts[0]), White), EndShaderMode];
  }

  /** The shader-mode bracket sets and clears the shader mode. */
  lemma StepShaderMode(s: GpuState, shader: Shader)
    ensures Step(s, BeginShaderMode(shader)) == s.(shaderMode := Some(shader))
    ensures Step(s, EndShaderMode) == s.(shaderMode := None)
  {
  }

  /** Clearing, texture uploads and drawing leave the observable state as it was. */
  lemma StepComposes(s: GpuState, shader: Shader, location: int, t: Texture2D, source: Rect)
    ensures Step(s, ClearBackground(Blank)) == s
    ensures Step(s, SetShaderValueTexture(shader, location, t)) == s
    ensures Step(s, DrawTextureRec(t, source, White)) == s
  {
  }

  class FinalStage {
    const shader: Shader
    const diffuseLocation: int
    const lightingLocation: int

    /** FinalStage(): loads the final fragment shader (with raylib's default vertex
        shader) and looks up its two texture locations. */
    constructor (dev: Device)
      modifies dev
      ensures shader == Shader(old(dev.nextHandle) + 1)
      ensures diffuseLocation == dev.shaderLocation(shader, "diffuseTexture")
      ensures lightingLocation == dev.shaderLocation(shader, "lightingTexture")
      ensures dev.calls == old(dev.calls) + [LoadShader(None, FinalFragment, shader)]
      ensures dev.state == old(dev.state) && dev.nextHandle == old(dev.nextHandle) + 1 && dev.Env() == old(dev.Env())
    {
      var s := dev.LoadShader(None, FinalFragment);
      shader := s;
      diffuseLocation := dev.shaderLocation(s, "diffuseTexture");
      lightingLocation := dev.shaderLocation(s, "lightingTexture");
    }

    /** Render(values): the output is always empty. It throws exactly when diffuse or
        lighting is missing, and then the shader mode is left on; otherwise the pass
        leaves the shader mode off and every other state as it was. */
    method Render(values: Channels, dev: Device) returns (out: Channels, thrown: bool)
      modifies dev
      ensures out == []
      ensures thrown <==> !Dict.HasKey(values, "diffuse") || !Dict.HasKey(values, "lighting")
      ensures dev.calls == old(dev.calls)
        + CompositeCalls(shader, diffuseLocation, lightingLocation, Lookups(values, FinalInputs, |FinalInputs|))
      ensures dev.state == old(dev.state).(shaderMode := if thrown then Some(shader) else None)
      ensures dev.nextHandle == old(dev.nextHandle) && dev.Env() == old(dev.Env())
    {
      out := [];
      LookupsSpec(values, FinalInputs, |FinalInputs|);
      ghost var ts := Lookups(values, FinalInputs, |FinalInputs|);
      CompositeCases(shader, diffuseLocation, lightingLocation, ts);
      ghost var c0 := dev.calls;
      ghost var opening := [ClearBackground(Blank), BeginShaderMode(shader)];
      Open(dev);
      var diffuse := Dict.Get(values, "diffuse");
      if diffuse.None? {
        assert ts == [];
        return out, true;
      }
      ghost var first := [SetShaderValueTexture(shader, diffuseLocation, diffuse.value)];
      Bind(diffuseLocation, diffuse.value, dev);
      AppendAssoc(c0, opening, first);
      var lighting := Dict.Get(values, "lighting");
      if lighting.None? {
        assert ts == [diffuse.value];
        return out, true;
      }
      assert ts == [diffuse.value, lighting.value];
      ghost var second := [SetShaderValueTexture(shader, lightingLocation, lighting.value)];
      ghost var closing := [DrawTextureRec(diffuse.value, FlippedSource(diffuse.value), White), EndShaderMode];
      Bind(lightingLocation, lighting.value, dev);
      AppendAssoc(c0, opening + first, second);
      Close(diffuse.value, dev);
      AppendAssoc(c0, opening + first + second, closing);
      thrown := false;
    }

    /** The start of Render: clear, then enter the shader mode. */
    method Open(dev: Device)
      modifies dev
      ensures dev.calls == old(dev.calls) + [ClearBackground(Blank), BeginShaderMode(shader)]
      ensures dev.state == old(dev.state).(shaderMode := Some(shader))
      ensures dev.nextHandle == old(dev.nextHandle) && dev.Env() == old(dev.Env())
    {
      ghost var s := dev.state;
      StepComposes(s, shader, 0, NoTexture, Rect(0.0, 0.0, 0.0, 0.0));
      StepShaderMode(s, shader);
      dev.Issue(ClearBackground(Blank));
      dev.Issue(BeginShaderMode(shader));
    }

    /** One texture bound to a location of the shader. */
    method Bind(location: int, t: Texture2D, dev: Device)
      modifies dev
      ensures dev.calls == old(dev.calls) + [SetShaderValueTexture(shader, location, t)]
      ensures dev.state == old(dev.state)
      ensures dev.nextHandle == old(dev.nextHandle) && dev.Env() == old(dev.Env())
    {
      StepComposes(dev.state, shader, location, t, FlippedSource(t));
      dev.Issue(SetShaderValueTexture(shader, location, t));
    }

    /** The end of Render: the one draw, then leave the shader mode. */
    method Close(diffuse: Texture2D, dev: Device)
      modifies dev
      ensures dev.calls == old(dev.calls) + [DrawTextureRec(diffuse, FlippedSource(diffuse), White), EndShaderMode]
      ensures dev.state == old(dev.state).(shaderMode := None)
      ensures dev.nextHandle == old(dev.nextHandle) && dev.Env() == old(dev.Env())
    {
      ghost var s := dev.state;
      StepComposes(s, shader, 0, diffuse, FlippedSource(diffuse));
      StepShaderMode(s, shader);
      dev.Issue(DrawTextureRec(diffuse, FlippedSource(diffuse), White));
      dev.Issue(EndShaderMode);
    }
  }
}
