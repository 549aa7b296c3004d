/** Core/Resources/TextureResource.cs and ModelResource.cs: named GPU resources
    owned by a scene. */
module Resources {
  import opened Common
  import opened Raylib
  import Configuration

  // ---------------------------------------------------------------- textures

  /** The texture after SetMipmaps(enabled): enabling generates mip levels only for a
      texture that has exactly one; disabling marks it as having one. */
  function WithMipmaps(t: Texture2D, enabled: bool, levels: Texture2D -> int): Texture2D {
    if !enabled then t.(mipmaps := 1)
    else if t.mipmaps == 1 then t.(mipmaps := levels(t))
    else t
  }

  /** The calls SetMipmaps(enabled) makes. */
  function MipmapCalls(t: Texture2D, enabled: bool): seq<GpuCall> {
    if enabled && t.mipmaps == 1 then [GenTextureMipmaps(t)] else []
  }

  /** SetMipmaps changes nothing but the mip level count, and enabling twice is the same
      as enabling once: the second call finds the levels already generated, or, when the
      texture only has one level, regenerates the same texture. */
  lemma {:induction false} MipmapsIdempotent(t: Texture2D, levels: Texture2D -> int)
    ensures WithMipmaps(WithMipmaps(t, true, levels), true, levels) == WithMipmaps(t, true, levels)
    ensures WithMipmaps(WithMipmaps(t, false, levels), false, levels) == WithMipmaps(t, false, levels)
    ensures MipmapCalls(WithMipmaps(t, true, levels), true) != [] ==> WithMipmaps(t, true, levels) == t.(mipmaps := 1)
    ensures forall e :: WithMipmaps(t, e, levels) == t.(mipmaps := WithMipmaps(t, e, levels).mipmaps)
  {
    var once := WithMipmaps(t, true, levels);
    if t.mipmaps == 1 && levels(t) == 1 {
      assert once == t;
    }
  }

  /** A texture resource: a name fixed at creation and the texture it owns. */
  class TextureResource {
    const name: string
    var texture: Texture2D

    /** The constructor applies the configured mipmaps, then Point filtering, then the
        configured filter (which is Point when the setting is missing or unreadable). */
    constructor (name: string, texture: Texture2D, cfg: Configuration.Config, dev: Device)
      modifies dev
      ensures this.name == name
      ensures this.texture == WithMipmaps(texture, cfg.GetBool("graphic:mipmaps"), dev.mipmapLevels)
      ensures dev.calls == old(dev.calls) + MipmapCalls(texture, cfg.GetBool("graphic:mipmaps"))
                           + [SetTextureFilter(this.texture, Point), SetTextureFilter(this.texture, cfg.GetFilter("graphic:filtering"))]
      ensures dev.Env() == old(dev.Env()) && dev.nextHandle == old(dev.nextHandle)
    {
      this.name := name;
      this.texture := texture;
      new;
      SetMipmaps(cfg.GetBool("graphic:mipmaps"), dev);
      SetFiltering(Point, dev);
      SetFiltering(cfg.GetFilter("graphic:filtering"), dev);
    }

    /** SetFiltering: raylib's filter for this texture. */
    method SetFiltering(filter: TextureFilter, dev: Device)
      modifies dev
      ensures dev.calls == old(dev.calls) + [SetTextureFilter(texture, filter)] && dev.state == old(dev.state)
      ensures dev.Env() == old(dev.Env()) && dev.nextHandle == old(dev.nextHandle)
    {
      dev.Issue(SetTextureFilter(texture, filter));
    }

    /** SetMipmaps. */
    method SetMipmaps(enabled: bool, dev: Device)
      modifies this`texture, dev
      ensures texture == WithMipmaps(old(texture), enabled, dev.mipmapLevels)
      ensures dev.calls == old(dev.calls) + MipmapCalls(old(texture), enabled) && dev.state == old(dev.state)
      ensures dev.Env() == old(dev.Env()) && dev.nextHandle == old(dev.nextHandle)
    {
      if enabled {
        if texture.mipmaps == 1 {
          texture := dev.GenMipmaps(texture);
        }
        return;
      }
      texture := texture.(mipmaps := 1);
    }

    /** Dispose unloads the texture. */
    method Dispose(dev: Device)
      modifies dev
      ensures dev.calls == old(dev.calls) + old(DisposeCalls())
      ensures dev.Env() == old(dev.Env()) && dev.nextHandle == old(dev.nextHandle)
    {
      dev.Issue(UnloadTexture(texture));
    }

    function DisposeCalls(): seq<GpuCall>
      reads this
    {
      [UnloadTexture(texture)]
    }
  }

  // ---------------------------------------------------------------- models

  /** The model with every material using `shader`, and nothing else changed. */
  function WithShader(m: Model, shader: Shader): Model {
    Model(m.meshes, seq(|m.materials|, i requires 0 <= i < |m.materials| => m.materials[i].(shader := shader)))
  }

  /** The calls SetDefaultShader makes: one SetMaterialShader per material, in order. */
  function ShaderCalls(count: nat, shader: Shader): seq<GpuCall> {
    seq(count, i requires 0 <= i < count => SetMaterialShader(i, shader))
  }

  /** The draw calls Render makes: mesh i with material i. A model with fewer materials
      than meshes has no material i for the later meshes (raylib then reads unmanaged
      memory past the array); that read is None here. */
  function DrawCalls(m: Model, transform: Transform): seq<GpuCall> {
    seq(m.MeshCount(), i requires 0 <= i < m.MeshCount() =>
      DrawMesh(m.meshes[i], if i < m.MaterialCount() then Some(m.materials[i]) else None, transform))
  }

  /** A model resource: a name fixed at creation and the model it owns. */
  class ModelResource {
    const name: string
    var model: Model

    /** The constructor assigns the pipeline's default shader to every material when a
        pipeline exists (`pipelineShader` is RenderingPipeline.Instance?.DefaultShader). */
    constructor (name: string, model: Model, pipelineShader: Option<Shader>, dev: Device)
      modifies dev
      ensures this.name == name
      ensures pipelineShader.None? ==> this.model == model && dev.calls == old(dev.calls)
      ensures pipelineShader.Some? ==>
        && this.model == WithShader(model, pipelineShader.value)
        && dev.calls == old(dev.calls) + ShaderCalls(model.MaterialCount(), pipelineShader.value)
      ensures dev.state == old(dev.state) && dev.Env() == old(dev.Env()) && dev.nextHandle == old(dev.nextHandle)
    {
      this.name := name;
      this.model := model;
      new;
      SetDefaultShader(pipelineShader, dev);
    }

    /** SetDefaultShader. */
    method SetDefaultShader(pipelineShader: Option<Shader>, dev: Device)
      modifies this`model, dev
      ensures pipelineShader.None? ==> model == old(model) && dev.calls == old(dev.calls)
      ensures pipelineShader.Some? ==>
        && model == WithShader(old(model), pipelineShader.value)
        && dev.calls == old(dev.calls) + ShaderCalls(old(model).MaterialCount(), pipelineShader.value)
      ensures dev.state == old(dev.state) && dev.Env() == old(dev.Env()) && dev.nextHandle == old(dev.nextHandle)
    {
      if pipelineShader.None? {
        return;
      }
      var shader := pipelineShader.value;
      var i := 0;
      while i < model.MaterialCount()
        invariant 0 <= i <= model.MaterialCount() == old(model).MaterialCount()
        invariant model.meshes == old(model).meshes
        invariant forall k :: 0 <= k < i ==> model.materials[k] == old(model).materials[k].(shader := shader)
        invariant forall k :: i <= k < model.MaterialCount() ==> model.materials[k] == old(model).materials[k]
        invariant dev.calls == old(dev.calls) + ShaderCalls(i, shader)
        invariant dev.state == old(dev.state) && dev.Env() == old(dev.Env()) && dev.nextHandle == old(dev.nextHandle)
      {
        dev.Issue(SetMaterialShader(i, shader));
        model := model.(materials := model.materials[i := model.materials[i].(shader := shader)]);
        i := i + 1;
      }
      assert model.materials == WithShader(old(model), shader).materials;
    }

    /** SetMaterialTexture: material `index`'s map slot now holds the texture. */
    method SetMaterialTexture(index: nat, slot: MaterialMap, texture: Texture2D, dev: Device)
      requires index < model.MaterialCount()
      modifies this`model, dev
      ensures model.meshes == old(model).meshes && |model.materials| == |old(model).materials|
      ensures model.materials[index] == old(model).materials[index].(maps := old(model).materials[index].maps[slot := texture])
      ensures forall k :: 0 <= k < |model.materials| && k != index ==> model.materials[k] == old(model).materials[k]
      ensures dev.calls == old(dev.calls) + [GpuCall.SetMaterialTexture(index, slot, texture)] && dev.state == old(dev.state)
      ensures dev.Env() == old(dev.Env()) && dev.nextHandle == old(dev.nextHandle)
    {
      dev.Issue(GpuCall.SetMaterialTexture(index, slot, texture));
      var mat := model.materials[index];
      model := model.(materials := model.materials[index := mat.(maps := mat.maps[slot := texture])]);
    }

    /** Render(position, rotation, scale, color): one DrawMesh per mesh. The color is not
        passed on, so it has no effect. */
    method Render(position: Vec3, rotation: Vec3, scale: Vec3, color: Color, dev: Device)
      modifies dev
      ensures dev.calls == old(dev.calls) + DrawCalls(model, Transform(position, rotation, scale))
      ensures dev.state == old(dev.state) && dev.Env() == old(dev.Env()) && dev.nextHandle == old(dev.nextHandle)
    {
      var transform := Transform(position, rotation, scale);
      var i := 0;
      while i < model.MeshCount()
        invariant 0 <= i <= model.MeshCount()
        invariant dev.calls == old(dev.calls) + DrawCalls(model, transform)[..i]
        invariant dev.state == old(dev.state) && dev.Env() == old(dev.Env()) && dev.nextHandle == old(dev.nextHandle)
      {
        dev.Issue(DrawMesh(model.meshes[i], if i < model.MaterialCount() then Some(model.materials[i]) else None, transform));
        assert DrawCalls(model, transform)[..i + 1] == DrawCalls(model, transform)[..i] + [DrawCalls(model, transform)[i]];
        i := i + 1;
      }
      assert DrawCalls(model, transform)[..i] == DrawCalls(model, transform);
    }

    /** Render(position): rotation zero, scale one, white. */
    method RenderAt(position: Vec3, dev: Device)
      modifies dev
      ensures dev.calls == old(dev.calls) + DrawCalls(model, Transform(position, Zero, One))
      ensures dev.state == old(dev.state) && dev.Env() == old(dev.Env()) && dev.nextHandle == old(dev.nextHandle)
    {
      Render(position, Zero, One, White, dev);
    }

    /** Render(position, rotation): scale one, white. */
    method RenderRotated(position: Vec3, rotation: Vec3, dev: Device)
      modifies dev
      ensures dev.calls == old(dev.calls) + DrawCalls(model, Transform(position, rotation, One))
      ensures dev.state == old(dev.state) && dev.Env() == old(dev.Env()) && dev.nextHandle == old(dev.nextHandle)
    {
      Render(position, rotation, One, White, dev);
    }

    /** Render(position, rotation, scale): white. */
    method RenderScaled(position: Vec3, rotation: Vec3, scale: Vec3, dev: Device)
      modifies dev
      ensures dev.calls == old(dev.calls) + DrawCalls(model, Transform(position, rotation, scale))
      ensures dev.state == old(dev.state) && dev.Env() == old(dev.Env()) && dev.nextHandle == old(dev.nextHandle)
    {
      Render(position, rotation, scale, White, dev);
    }

    /** Dispose unloads the model. */
    method Dispose(dev: Device)
      modifies dev
      ensures dev.calls == old(dev.calls) + old(DisposeCalls())
      ensures dev.Env() == old(dev.Env()) && dev.nextHandle == old(dev.nextHandle)
    {
      dev.Issue(UnloadModel(model));
    }

    function DisposeCalls(): seq<GpuCall>
      reads this
    {
      [UnloadModel(model)]
    }
  }

  /** After SetDefaultShader every material uses the pipeline's shader; meshes, their number
      and the number of materials are unchanged. */
  lemma DefaultShaderEverywhere(m: Model, shader: Shader)
    ensures var r := WithShader(m, shader);
      && r.MeshCount() == m.MeshCount() && r.MaterialCount() == m.MaterialCount()
      && forall i :: 0 <= i < r.MaterialCount() ==> r.materials[i].shader == shader && r.materials[i].maps == m.materials[i].maps
  {
  }

  /** Render draws every mesh exactly once, in order, each with the same transform and,
      when the model has a material for it, the material with the same index. */
  lemma DrawsPairMeshes(m: Model, transform: Transform)
    ensures |DrawCalls(m, transform)| == m.MeshCount()
    ensures forall i :: 0 <= i < m.MeshCount() ==>
      && DrawCalls(m, transform)[i].DrawMesh?
      && DrawCalls(m, transform)[i].mesh == m.meshes[i]
      && DrawCalls(m, transform)[i].transform == transform
      && (i < m.MaterialCount() ==> DrawCalls(m, transform)[i].material == Some(m.materials[i]))
  {
  }
}
