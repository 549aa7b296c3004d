/** Core/Entities: the scene's entity classes. Each class has its bindable fields
    (the public settable properties) and a factory that runs the property
    constructor: field initialisers first, then LoadProperties. An exception
    escaping the binding or the constructor is the `thrown` result; the half-built
    object is then unreachable, so it is not returned. */
module Entities {
  import opened Common
  import opened Dict
  import opened Raylib
  import opened Resources
  import opened Values
  import opened Binding
  import Gui

  /** The model a `Model` field holds after binding. */
  function AsModel(bound: map<string, Value>, f: string, current: ModelResource?): ModelResource? {
    if f !in bound then current else if bound[f].ModelRef? then bound[f].model else null
  }

  /** The texture a texture field holds after binding. */
  function AsTexture(bound: map<string, Value>, f: string, current: TextureResource?): TextureResource? {
    if f !in bound then current else if bound[f].TextureRef? then bound[f].texture else null
  }

  // ---------------------------------------------------------------- StaticEntity

  /** StaticEntity's public settable properties (its own, then BaseEntity's). */
  const StaticFields: FieldTable :=
    [("Model", ModelField), ("Position", Vec3Field), ("Rotation", Vec3Field), ("Scale", Vec3Field), ("Name", StringField)]

  /** A renderable entity drawing a shared model with its own transform. It is not
      IDisposable: the model belongs to the scene's model table. */
  class StaticEntity {
    const name: Option<string>
    const model: ModelResource?
    const position: Vec3
    const rotation: Vec3
    const scale: Vec3

    /** StaticEntity(name, model): the model as given, no binding. */
    constructor (name: string, model: ModelResource?)
      ensures this.name == Some(name) && this.model == model
      ensures position == Zero && rotation == Zero && scale == One
    {
      this.name := Some(name);
      this.model := model;
      position, rotation, scale := Zero, Zero, One;
    }

    /** The fields after the initialisers and a binding that assigned `bound`. */
    predicate HasFields(name: string, bound: map<string, Value>) {
      && this.name == AsString(bound, "Name", Some(name))
      && model == AsModel(bound, "Model", null)
      && position == AsVec3(bound, "Position", Zero) && rotation == AsVec3(bound, "Rotation", Zero)
      && scale == AsVec3(bound, "Scale", One)
    }

    constructor Bound(name: string, bound: map<string, Value>)
      ensures HasFields(name, bound)
    {
      this.name := AsString(bound, "Name", Some(name));
      model := AsModel(bound, "Model", null);
      position := AsVec3(bound, "Position", Zero);
      rotation := AsVec3(bound, "Rotation", Zero);
      scale := AsVec3(bound, "Scale", One);
    }

    /** StaticEntity(name, properties), for an object whose run-time class is `className`. */
    static method FromProperties(className: string, name: string, props: Dict<string, Value>, conv: Converter, dev: Device)
      returns (e: StaticEntity?, thrown: bool)
      modifies dev
      ensures var s := Bind(className, StaticFields, props, conv);
        && thrown == s.thrown && dev.calls == old(dev.calls) + s.log
        && (thrown <==> e == null)
        && (!thrown ==> fresh(e) && e.HasFields(name, s.bound))
      ensures dev.state == old(dev.state) && dev.Env() == old(dev.Env()) && dev.nextHandle == old(dev.nextHandle)
    {
      var bound;
      bound, thrown := LoadProperties(className, StaticFields, props, conv, dev);
      if thrown {
        return null, true;
      }
      e := new StaticEntity.Bound(name, bound);
    }

    /** What Render draws: nothing without a model, else the model with this entity's
        own position, rotation and scale. */
    function RenderCalls(): seq<GpuCall>
      reads model
    {
      if model == null then [] else DrawCalls(model.model, Transform(position, rotation, scale))
    }

    method Render(dev: Device)
      modifies dev
      ensures dev.calls == old(dev.calls) + old(RenderCalls())
      ensures dev.state == old(dev.state) && dev.Env() == old(dev.Env()) && dev.nextHandle == old(dev.nextHandle)
    {
      if model != null {
        model.Render(position, rotation, scale, White, dev);
      }
    }
  }

  /** Scale defaults to one and position and rotation to zero: a property constructor
      whose properties name none of them leaves exactly these, and a `scale` property
      (in any case) overrides the default. */
  lemma {:induction false} StaticDefaults(props: Dict<string, Value>, conv: Converter, className: string)
    requires !Bind(className, StaticFields, props, conv).thrown
    requires forall i :: 0 <= i < |props| ==> Lookup(StaticFields, props[i].0).None? || Lookup(StaticFields, props[i].0).value.0 != "Scale"
    ensures AsVec3(Bind(className, StaticFields, props, conv).bound, "Scale", One) == One
  {
    LastWins(className, StaticFields, props, conv, "Scale");
  }

  // ---------------------------------------------------------------- DynamicEntity

  /** DynamicEntity: a StaticEntity (its fields, defaults, bindable names and Render
      are inherited) that is also IUpdatable. */
  class DynamicEntity {
    /** The inherited StaticEntity part. */
    const base: StaticEntity

    constructor (name: string, model: ModelResource?)
      ensures fresh(base) && base.name == Some(name) && base.model == model
      ensures base.position == Zero && base.rotation == Zero && base.scale == One
    {
      base := new StaticEntity(name, model);
    }

    constructor Of(base: StaticEntity)
      ensures this.base == base
    {
      this.base := base;
    }

    /** DynamicEntity(name, properties): StaticEntity's binding, with warnings naming
        DynamicEntity (the run-time class). */
    static method FromProperties(name: string, props: Dict<string, Value>, conv: Converter, dev: Device)
      returns (e: DynamicEntity?, thrown: bool)
      modifies dev
      ensures var s := Bind("DynamicEntity", StaticFields, props, conv);
        && thrown == s.thrown && dev.calls == old(dev.calls) + s.log
        && (thrown <==> e == null)
        && (!thrown ==> fresh(e) && fresh(e.base) && e.HasFields(name, s.bound))
      ensures dev.state == old(dev.state) && dev.Env() == old(dev.Env()) && dev.nextHandle == old(dev.nextHandle)
    {
      var b;
      b, thrown := StaticEntity.FromProperties("DynamicEntity", name, props, conv, dev);
      if thrown {
        return null, true;
      }
      e := new DynamicEntity.Of(b);
    }

    /** The inherited fields after a binding that assigned `bound`. */
    predicate HasFields(name: string, bound: map<string, Value>) {
      base.HasFields(name, bound)
    }

    /** Render is StaticEntity's. */
    function RenderCalls(): seq<GpuCall>
      reads base.model
    {
      base.RenderCalls()
    }

    method Render(dev: Device)
      modifies dev
      ensures dev.calls == old(dev.calls) + old(RenderCalls())
      ensures dev.state == old(dev.state) && dev.Env() == old(dev.Env()) && dev.nextHandle == old(dev.nextHandle)
    {
      base.Render(dev);
    }

    /** Update(dt) does nothing, whatever dt is. */
    method Update(dt: real)
      ensures unchanged(this, base)
    {
    }
  }

  // ---------------------------------------------------------------- WorldEntity

  const WorldFields: FieldTable :=
    [("Position", Vec3Field), ("Rotation", Vec3Field), ("Scale", Vec3Field),
     ("ChunkCount", IntField), ("ChunkSize", IntField), ("MapPath", StringField),
     ("DiffuseTexture", TextureField), ("NormalTexture", TextureField), ("SpecularTexture", TextureField),
     ("Name", StringField)]

  /** The map file `{basePath}/{MapPath}`; a null MapPath interpolates as "". */
  function MapFile(basePath: string, mapPath: Option<string>): string {
    basePath + "/" + (if mapPath.Some? then mapPath.value else "")
  }

  /** The material maps of a chunk: the diffuse, normal and specular maps of the world's
      textures that are set. */
  function ChunkMaps(diffuse: TextureResource?, normal: TextureResource?, specular: TextureResource?): map<MaterialMap, Texture2D>
    reads diffuse, normal, specular
  {
    var m1 := if diffuse != null then map[DiffuseMap := diffuse.texture] else map[];
    var m2 := if normal != null then m1[NormalMap := normal.texture] else m1;
    if specular != null then m2[SpecularMap := specular.texture] else m2
  }

  /** The SetMaterialTexture calls for the textures that are set. */
  function ChunkTextureCalls(diffuse: TextureResource?, normal: TextureResource?, specular: TextureResource?): seq<GpuCall>
    reads diffuse, normal, specular
  {
    (if diffuse != null then [GpuCall.SetMaterialTexture(0, DiffuseMap, diffuse.texture)] else [])
    + (if normal != null then [GpuCall.SetMaterialTexture(0, NormalMap, normal.texture)] else [])
    + (if specular != null then [GpuCall.SetMaterialTexture(0, SpecularMap, specular.texture)] else [])
  }

  /** The shader a fresh ModelResource gives its materials. */
  function ShaderFor(pipelineShader: Option<Shader>, raylibDefault: Shader): Shader {
    if pipelineShader.Some? then pipelineShader.value else raylibDefault
  }

  /** A map-based level geometry made of chunks. */
  class WorldEntity {
    const name: Option<string>
    var chunks: seq<StaticEntity>
    const position: Vec3
    const rotation: Vec3
    const scale: Vec3
    const chunkCount: int
    const chunkSize: int
    const mapPath: Option<string>
    const diffuseTexture: TextureResource?
    const normalTexture: TextureResource?
    const specularTexture: TextureResource?

    /** The fields after the initialisers and a binding that assigned `bound`; Scale
        has no initialiser, so its default is zero. */
    predicate HasFields(name: string, bound: map<string, Value>) {
      && this.name == AsString(bound, "Name", Some(name))
      && position == AsVec3(bound, "Position", Zero) && rotation == AsVec3(bound, "Rotation", Zero)
      && scale == AsVec3(bound, "Scale", Zero)
      && chunkCount == AsInt(bound, "ChunkCount", 0) && chunkSize == AsInt(bound, "ChunkSize", 0)
      && mapPath == AsString(bound, "MapPath", None)
      && diffuseTexture == AsTexture(bound, "DiffuseTexture", null)
      && normalTexture == AsTexture(bound, "NormalTexture", null)
      && specularTexture == AsTexture(bound, "SpecularTexture", null)
    }

    constructor Bound(name: string, bound: map<string, Value>)
      ensures HasFields(name, bound) && chunks == [] && Valid()
    {
      this.name := AsString(bound, "Name", Some(name));
      chunks := [];
      models := {};
      position := AsVec3(bound, "Position", Zero);
      rotation := AsVec3(bound, "Rotation", Zero);
      scale := AsVec3(bound, "Scale", Zero);
      chunkCount := AsInt(bound, "ChunkCount", 0);
      chunkSize := AsInt(bound, "ChunkSize", 0);
      mapPath := AsString(bound, "MapPath", None);
      diffuseTexture := AsTexture(bound, "DiffuseTexture", null);
      normalTexture := AsTexture(bound, "NormalTexture", null);
      specularTexture := AsTexture(bound, "SpecularTexture", null);
    }

    /** WorldEntity(name, properties, basePath): binding first, so resolved textures are
        in place when the chunk is built; then the map file and the chunk (Build).
        `fileExists` is File.Exists and `pipelineShader` the rendering pipeline's
        default shader, if a pipeline exists. */
    static method Create(name: string, props: Dict<string, Value>, basePath: string, fileExists: string -> bool,
                         pipelineShader: Option<Shader>, conv: Converter, dev: Device)
      returns (w: WorldEntity?, thrown: bool)
      modifies dev
      ensures var s := Bind("WorldEntity", WorldFields, props, conv);
        && (thrown <==> s.thrown || !fileExists(MapFile(basePath, AsString(s.bound, "MapPath", None))))
        && (thrown <==> w == null)
        && (thrown ==> dev.calls == old(dev.calls) + s.log && dev.nextHandle == old(dev.nextHandle))
        && (!thrown ==>
              var image := old(dev.nextHandle) + 1;
              && fresh(w) && w.HasFields(name, s.bound)
              && w.BuiltFrom(image, ShaderFor(pipelineShader, dev.defaultShader)) && fresh(w.chunks[0]) && fresh(w.chunks[0].model)
              && dev.calls == old(dev.calls) + s.log + [LoadImage(MapFile(basePath, w.mapPath), image)]
                   + ChunkCalls(image, Mesh(image + 1, 0, false), pipelineShader, w.diffuseTexture, w.normalTexture, w.specularTexture)
              && dev.nextHandle == old(dev.nextHandle) + 2)
      ensures dev.state == old(dev.state) && dev.Env() == old(dev.Env())
    {
      var bound;
      bound, thrown := LoadProperties("WorldEntity", WorldFields, props, conv, dev);
      if thrown {
        return null, true;
      }
      ghost var s := Bind("WorldEntity", WorldFields, props, conv);
      w, thrown := Construct(name, bound, basePath, fileExists, pipelineShader, dev, old(dev.calls) + s.log, old(dev.nextHandle) + 1);
    }

    /** The constructor after a binding that assigned `bound`: the bound fields, then Build. */
    static method Construct(name: string, bound: map<string, Value>, basePath: string, fileExists: string -> bool,
                            pipelineShader: Option<Shader>, dev: Device, ghost before: seq<GpuCall>, ghost image: Handle)
      returns (w: WorldEntity?, thrown: bool)
      requires dev.calls == before && image == dev.nextHandle + 1
      modifies dev
      ensures thrown <==> !fileExists(MapFile(basePath, AsString(bound, "MapPath", None)))
      ensures thrown <==> w == null
      ensures thrown ==> dev.calls == before && dev.nextHandle + 1 == image
      ensures !thrown ==>
        && fresh(w) && w.HasFields(name, bound)
        && w.BuiltFrom(image, ShaderFor(pipelineShader, dev.defaultShader)) && fresh(w.chunks[0]) && fresh(w.chunks[0].model)
        && dev.calls == before + [LoadImage(MapFile(basePath, w.mapPath), image)]
             + ChunkCalls(image, Mesh(image + 1, 0, false), pipelineShader, w.diffuseTexture, w.normalTexture, w.specularTexture)
        && dev.nextHandle == image + 1
      ensures dev.state == old(dev.state) && dev.Env() == old(dev.Env())
    {
      w := new WorldEntity.Bound(name, bound);
      thrown := w.Build(basePath, fileExists, pipelineShader, dev);
      if thrown {
        w := null;
      }
    }

    /** The world after Build: valid, with one chunk, the one built from map image `image`
        with `shader` and the world's textures. */
    ghost predicate BuiltFrom(image: Handle, shader: Shader)
      reads this, diffuseTexture, normalTexture, specularTexture, if |chunks| == 1 then {chunks[0].model} else {}
    {
      && Valid() && |chunks| == 1
      && IsChunk(chunks[0], Mesh(image + 1, 0, true), shader, ChunkMaps(diffuseTexture, normalTexture, specularTexture))
    }

    /** The constructor after LoadProperties: a missing map file `{basePath}/{MapPath}`
        throws (EngineException); otherwise the map image is loaded and one chunk built
        from it is the world's only chunk. */
    method Build(basePath: string, fileExists: string -> bool, pipelineShader: Option<Shader>, dev: Device)
      returns (thrown: bool)
      requires chunks == []
      modifies this`chunks, this`models, dev
      ensures thrown <==> !fileExists(MapFile(basePath, mapPath))
      ensures thrown ==> unchanged(dev) && chunks == []
      ensures !thrown ==>
        var image := old(dev.nextHandle) + 1;
        && BuiltFrom(image, ShaderFor(pipelineShader, dev.defaultShader)) && fresh(chunks[0]) && fresh(chunks[0].model)
        && dev.calls == old(dev.calls) + [LoadImage(MapFile(basePath, mapPath), image)]
             + ChunkCalls(image, Mesh(image + 1, 0, false), pipelineShader, diffuseTexture, normalTexture, specularTexture)
        && dev.nextHandle == old(dev.nextHandle) + 2
      ensures dev.state == old(dev.state) && dev.Env() == old(dev.Env())
    {
      var mapFile := basePath + "/" + (if mapPath.Some? then mapPath.value else "");
      if !fileExists(mapFile) {
        return true;
      }
      var mapImage := dev.LoadImage(mapFile);
      var chunk := LoadChunk(mapImage, pipelineShader, dev);
      chunks := [chunk];
      models := {chunk.model};
      thrown := false;
    }

    /** LoadChunk: a cubic-map mesh with tangents, in a fresh model resource and a fresh
        static entity, both named "Chunk1", with the world's textures set on material 0. */
    method LoadChunk(image: Handle, pipelineShader: Option<Shader>, dev: Device) returns (chunk: StaticEntity)
      modifies dev
      ensures fresh(chunk) && fresh(chunk.model)
      ensures IsChunk(chunk, Mesh(old(dev.nextHandle) + 1, 0, true), ShaderFor(pipelineShader, dev.defaultShader),
                      ChunkMaps(diffuseTexture, normalTexture, specularTexture))
      ensures dev.calls == old(dev.calls) + ChunkCalls(image, Mesh(old(dev.nextHandle) + 1, 0, false), pipelineShader, diffuseTexture, normalTexture, specularTexture)
      ensures dev.nextHandle == old(dev.nextHandle) + 1
      ensures dev.state == old(dev.state) && dev.Env() == old(dev.Env())
    {
      var modelResource := ChunkModel(image, pipelineShader, dev);
      SetChunkTextures(modelResource, dev);
      chunk := new StaticEntity("Chunk1", modelResource);
    }

    /** The texture steps of LoadChunk: the world's diffuse, normal and specular textures,
        those that are set, go into material 0's map slots. */
    method SetChunkTextures(r: ModelResource, dev: Device)
      requires |r.model.materials| == 1 && r.model.materials[0].maps == map[]
      modifies r`model, dev
      ensures r.model == old(r.model).(materials := [old(r.model).materials[0].(maps := ChunkMaps(diffuseTexture, normalTexture, specularTexture))])
      ensures dev.calls == old(dev.calls) + ChunkTextureCalls(diffuseTexture, normalTexture, specularTexture)
      ensures dev.state == old(dev.state) && dev.Env() == old(dev.Env()) && dev.nextHandle == old(dev.nextHandle)
    {
      if diffuseTexture != null {
        r.SetMaterialTexture(0, DiffuseMap, diffuseTexture.texture, dev);
      }
      if normalTexture != null {
        r.SetMaterialTexture(0, NormalMap, normalTexture.texture, dev);
      }
      if specularTexture != null {
        r.SetMaterialTexture(0, SpecularMap, specularTexture.texture, dev);
      }
    }

    /** The chunks' model resources, for the frames of Render and Dispose. */
    ghost var models: set<ModelResource>

    /** Every chunk's model is among `models`. */
    ghost predicate Valid()
      reads this
    {
      Covers(chunks, models)
    }

    /** What Render draws: every chunk, in order. */
    ghost function RenderCalls(): seq<GpuCall>
      requires Valid()
      reads this, models
    {
      ChunksCalls(chunks, |chunks|, models)
    }

    /** Render draws every chunk; the world's own transform is never used. */
    method Render(dev: Device)
      requires Valid()
      modifies dev
      ensures dev.calls == old(dev.calls) + old(RenderCalls())
      ensures dev.state == old(dev.state) && dev.Env() == old(dev.Env()) && dev.nextHandle == old(dev.nextHandle)
    {
      RenderChunks(chunks, models, dev);
    }

    /** Dispose unloads every chunk's model, then empties the chunk set; the chunks
        themselves are not disposable, so clearing them disposes nothing more. */
    method Dispose(dev: Device)
      requires Valid()
      modifies this`chunks, dev
      ensures chunks == [] && Valid()
      ensures dev.calls == old(dev.calls) + old(UnloadCalls(chunks, |chunks|, models))
      ensures dev.Env() == old(dev.Env()) && dev.nextHandle == old(dev.nextHandle)
    {
      UnloadChunks(chunks, models, dev);
      chunks := [];
    }
  }

  /** The loop of WorldEntity.Render: each chunk draws in turn. */
  method RenderChunks(cs: seq<StaticEntity>, ghost ms: set<ModelResource>, dev: Device)
    requires Covers(cs, ms)
    modifies dev
    ensures dev.calls == old(dev.calls) + old(ChunksCalls(cs, |cs|, ms))
    ensures dev.state == old(dev.state) && dev.Env() == old(dev.Env()) && dev.nextHandle == old(dev.nextHandle)
  {
    var i := 0;
    while i < |cs|
      invariant 0 <= i <= |cs|
      invariant dev.calls == old(dev.calls) + old(ChunksCalls(cs, i, ms))
      invariant dev.state == old(dev.state) && dev.Env() == old(dev.Env()) && dev.nextHandle == old(dev.nextHandle)
    {
      cs[i].Render(dev);
      AppendAssoc(old(dev.calls), old(ChunksCalls(cs, i, ms)), old(cs[i].RenderCalls()));
      i := i + 1;
    }
  }

  /** The first loop of WorldEntity.Dispose: each chunk's model, if any, is disposed in turn. */
  method UnloadChunks(cs: seq<StaticEntity>, ghost ms: set<ModelResource>, dev: Device)
    requires Covers(cs, ms)
    modifies dev
    ensures dev.calls == old(dev.calls) + old(UnloadCalls(cs, |cs|, ms))
    ensures dev.Env() == old(dev.Env()) && dev.nextHandle == old(dev.nextHandle)
  {
    var i := 0;
    while i < |cs|
      invariant 0 <= i <= |cs|
      invariant dev.calls == old(dev.calls) + old(UnloadCalls(cs, i, ms))
      invariant dev.Env() == old(dev.Env()) && dev.nextHandle == old(dev.nextHandle)
    {
      if cs[i].model != null {
        cs[i].model.Dispose(dev);
        AppendAssoc(old(dev.calls), old(UnloadCalls(cs, i, ms)), old(cs[i].model.DisposeCalls()));
      }
      i := i + 1;
    }
  }

  /** Every chunk's model is in `ms`. */
  predicate Covers(cs: seq<StaticEntity>, ms: set<ModelResource>) {
    forall j :: 0 <= j < |cs| && cs[j].model != null ==> cs[j].model in ms
  }

  /** A chunk as LoadChunk builds it: named "Chunk1", default transform, and a model
      resource "Chunk1" holding the one mesh and one material with the given shader and maps. */
  predicate IsChunk(chunk: StaticEntity, mesh: Mesh, shader: Shader, maps: map<MaterialMap, Texture2D>)
    reads chunk.model
  {
    && chunk.name == Some("Chunk1")
    && chunk.position == Zero && chunk.rotation == Zero && chunk.scale == One
    && chunk.model != null && chunk.model.name == "Chunk1"
    && chunk.model.model == Model([mesh], [Material(shader, maps)])
  }

  /** The fresh model resource of a chunk: the cubic-map mesh with tangents, loaded as a
      model whose one material gets the pipeline's shader, if a pipeline exists. */
  method ChunkModel(image: Handle, pipelineShader: Option<Shader>, dev: Device) returns (r: ModelResource)
    modifies dev
    ensures fresh(r) && r.name == "Chunk1"
    ensures r.model == Model([Mesh(old(dev.nextHandle) + 1, 0, true)], [Material(ShaderFor(pipelineShader, dev.defaultShader), map[])])
    ensures dev.calls == old(dev.calls) + ChunkModelCalls(image, Mesh(old(dev.nextHandle) + 1, 0, false), pipelineShader)
    ensures dev.nextHandle == old(dev.nextHandle) + 1
    ensures dev.state == old(dev.state) && dev.Env() == old(dev.Env())
  {
    var mesh := dev.GenMesh(Cubicmap(image));
    mesh := dev.GenTangents(mesh);
    var model := dev.ModelFromMesh(mesh);
    r := new ModelResource("Chunk1", model, pipelineShader, dev);
    if pipelineShader.Some? {
      assert WithShader(model, pipelineShader.value).materials == [Material(pipelineShader.value, map[])];
    }
  }

  /** The calls of ChunkModel: mesh, tangents, model and the default shader. */
  function ChunkModelCalls(image: Handle, mesh: Mesh, pipelineShader: Option<Shader>): seq<GpuCall> {
    [GenMesh(Cubicmap(image), mesh), GenMeshTangents(mesh), LoadModelFromMesh(mesh.(tangents := true))]
    + (if pipelineShader.Some? then ShaderCalls(1, pipelineShader.value) else [])
  }

  /** All calls of LoadChunk. */
  function ChunkCalls(image: Handle, mesh: Mesh, pipelineShader: Option<Shader>,
                      diffuse: TextureResource?, normal: TextureResource?, specular: TextureResource?): seq<GpuCall>
    reads diffuse, normal, specular
  {
    ChunkModelCalls(image, mesh, pipelineShader) + ChunkTextureCalls(diffuse, normal, specular)
  }

  /** The draw calls of the first n chunks, in order. */
  function ChunksCalls(cs: seq<StaticEntity>, n: nat, ms: set<ModelResource>): seq<GpuCall>
    requires n <= |cs| && Covers(cs, ms)
    reads ms
  {
    if n == 0 then [] else ChunksCalls(cs, n - 1, ms) + cs[n - 1].RenderCalls()
  }

  /** The UnloadModel calls for those of the first n chunks that have a model, in order. */
  function UnloadCalls(cs: seq<StaticEntity>, n: nat, ms: set<ModelResource>): seq<GpuCall>
    requires n <= |cs| && Covers(cs, ms)
    reads ms
  {
    if n == 0 then []
    else UnloadCalls(cs, n - 1, ms) + (var c := cs[n - 1]; if c.model != null then c.model.DisposeCalls() else [])
  }

  /** A constructed world draws exactly its one chunk model, with rotation and position
      zero and scale one, whatever the world's own Position, Rotation and Scale are. */
  lemma {:induction false} WorldIgnoresOwnTransform(chunk: StaticEntity, mesh: Mesh, shader: Shader,
                                                    maps: map<MaterialMap, Texture2D>, ms: set<ModelResource>)
    requires IsChunk(chunk, mesh, shader, maps) && chunk.model in ms
    ensures ChunksCalls([chunk], 1, ms) == [DrawMesh(mesh, Some(Material(shader, maps)), Transform(Zero, Zero, One))]
  {
    assert ChunksCalls([chunk], 0, ms) == [];
    assert [chunk][0] == chunk;
    var m := chunk.model.model;
    assert m.MeshCount() == 1 && m.MaterialCount() == 1;
    var calls := DrawCalls(m, Transform(Zero, Zero, One));
    assert calls[0] == DrawMesh(m.meshes[0], Some(m.materials[0]), Transform(Zero, Zero, One));
  }

  /** Dispose of a constructed world unloads exactly its one chunk model. */
  lemma {:induction false} DisposeUnloadsChunk(chunk: StaticEntity, mesh: Mesh, shader: Shader,
                                               maps: map<MaterialMap, Texture2D>, ms: set<ModelResource>)
    requires IsChunk(chunk, mesh, shader, maps) && chunk.model in ms
    ensures UnloadCalls([chunk], 1, ms) == [UnloadModel(Model([mesh], [Material(shader, maps)]))]
  {
  }

  // ---------------------------------------------------------------- CameraEntity

  /** The camera of CameraEntity(name). */
  const DefaultCamera := Camera3D(One, Zero, UnitY, 45.0, Perspective)

  /** Only Position, Target and IsMain (and Name) are bindable. */
  const CameraFields: FieldTable :=
    [("Position", Vec3Field), ("Target", Vec3Field), ("IsMain", BoolField), ("Name", StringField)]

  class CameraEntity {
    const name: Option<string>
    var camera: Camera3D
    const isMain: bool

    /** CameraEntity(name): position one, target zero, up UnitY, fovy 45, perspective;
        not main. */
    constructor (name: string)
      ensures this.name == Some(name) && camera == DefaultCamera && !isMain
    {
      this.name := Some(name);
      camera := DefaultCamera;
      isMain := false;
    }

    /** The fields after the default camera and a binding that assigned `bound`. */
    predicate HasFields(name: string, bound: map<string, Value>)
      reads this
    {
      && this.name == AsString(bound, "Name", Some(name))
      && camera == DefaultCamera.(position := AsVec3(bound, "Position", One), target := AsVec3(bound, "Target", Zero))
      && isMain == AsBool(bound, "IsMain", false)
    }

    constructor Bound(name: string, bound: map<string, Value>)
      ensures HasFields(name, bound)
    {
      this.name := AsString(bound, "Name", Some(name));
      camera := DefaultCamera.(position := AsVec3(bound, "Position", One), target := AsVec3(bound, "Target", Zero));
      isMain := AsBool(bound, "IsMain", false);
    }

    /** CameraEntity(name, properties). */
    static method FromProperties(name: string, props: Dict<string, Value>, conv: Converter, dev: Device)
      returns (e: CameraEntity?, thrown: bool)
      modifies dev
      ensures var s := Bind("CameraEntity", CameraFields, props, conv);
        && thrown == s.thrown && dev.calls == old(dev.calls) + s.log
        && (thrown <==> e == null)
        && (!thrown ==> fresh(e) && e.HasFields(name, s.bound))
      ensures dev.state == old(dev.state) && dev.Env() == old(dev.Env()) && dev.nextHandle == old(dev.nextHandle)
    {
      var bound;
      bound, thrown := LoadProperties("CameraEntity", CameraFields, props, conv, dev);
      if thrown {
        return null, true;
      }
      e := new CameraEntity.Bound(name, bound);
    }

    function Position(): Vec3
      reads this
    {
      camera.position
    }

    function Target(): Vec3
      reads this
    {
      camera.target
    }

    method SetPosition(v: Vec3)
      modifies this`camera
      ensures Position() == v && Target() == old(Target())
      ensures camera == old(camera).(position := v)
    {
      camera := camera.(position := v);
    }

    method SetTarget(v: Vec3)
      modifies this`camera
      ensures Target() == v && Position() == old(Position())
      ensures camera == old(camera).(target := v)
    {
      camera := camera.(target := v);
    }

    /** Update: nothing while GUI mode is on; otherwise the camera takes one step of
        raylib's custom camera update. */
    method Update(dt: real, gui: Gui.GuiMode, dev: Device)
      modifies this`camera, dev
      ensures gui.IsGuiMode() ==> camera == old(camera) && dev.calls == old(dev.calls)
      ensures !gui.IsGuiMode() ==> camera == dev.cameraStep(old(camera)) && dev.calls == old(dev.calls) + [UpdateCamera(old(camera))]
      ensures dev.state == old(dev.state) && dev.Env() == old(dev.Env()) && dev.nextHandle == old(dev.nextHandle)
    {
      if gui.IsGuiMode() {
        return;
      }
      camera := dev.StepCamera(camera);
    }

    method BeginCameraMode(dev: Device)
      modifies dev
      ensures dev.calls == old(dev.calls) + [BeginMode3D(camera)] && dev.state == old(dev.state).(mode3D := Some(camera))
      ensures dev.Env() == old(dev.Env()) && dev.nextHandle == old(dev.nextHandle)
    {
      dev.Issue(BeginMode3D(camera));
    }

    method EndCameraMode(dev: Device)
      modifies dev
      ensures dev.calls == old(dev.calls) + [EndMode3D] && dev.state == old(dev.state).(mode3D := None)
      ensures dev.Env() == old(dev.Env()) && dev.nextHandle == old(dev.nextHandle)
    {
      dev.Issue(EndMode3D);
    }
  }

  /** The property constructor changes only what the properties name: FovY, Up and the
      projection always keep their defaults, and a camera whose properties name neither
      position nor target nor IsMain is the default camera, not main. */
  lemma {:induction false} CameraKeepsDefaults(props: Dict<string, Value>, conv: Converter)
    requires !Bind("CameraEntity", CameraFields, props, conv).thrown
    requires forall i :: 0 <= i < |props| ==> Lookup(CameraFields, props[i].0).None? || Lookup(CameraFields, props[i].0).value.0 == "Name"
    ensures var b := Bind("CameraEntity", CameraFields, props, conv).bound;
      && DefaultCamera.(position := AsVec3(b, "Position", One), target := AsVec3(b, "Target", Zero)) == DefaultCamera
      && !AsBool(b, "IsMain", false)
  {
    LastWins("CameraEntity", CameraFields, props, conv, "Position");
    LastWins("CameraEntity", CameraFields, props, conv, "Target");
    LastWins("CameraEntity", CameraFields, props, conv, "IsMain");
  }

  // ---------------------------------------------------------------- PointLightEntity

  const PointLightFields: FieldTable :=
    [("Position", Vec3Field), ("Radius", FloatField), ("Intensity", FloatField), ("Color", ColorField), ("Name", StringField)]

  /** A point light: neither renderable, nor updatable, nor disposable. */
  class PointLightEntity {
    const name: Option<string>
    const position: Vec3
    const radius: real
    const intensity: real
    const color: Color

    /** The fields after a binding that assigned `bound`; unbound fields keep their type
        defaults. */
    predicate HasFields(name: string, bound: map<string, Value>) {
      && this.name == AsString(bound, "Name", Some(name))
      && position == AsVec3(bound, "Position", Zero)
      && radius == AsReal(bound, "Radius", 0.0) && intensity == AsReal(bound, "Intensity", 0.0)
      && color == AsColor(bound, "Color", DefaultColor)
    }

    constructor Bound(name: string, bound: map<string, Value>)
      ensures HasFields(name, bound)
    {
      this.name := AsString(bound, "Name", Some(name));
      position := AsVec3(bound, "Position", Zero);
      radius := AsReal(bound, "Radius", 0.0);
      intensity := AsReal(bound, "Intensity", 0.0);
      color := AsColor(bound, "Color", DefaultColor);
    }

    /** PointLightEntity(name, properties): construction always binds. */
    static method FromProperties(name: string, props: Dict<string, Value>, conv: Converter, dev: Device)
      returns (e: PointLightEntity?, thrown: bool)
      modifies dev
      ensures var s := Bind("PointLightEntity", PointLightFields, props, conv);
        && thrown == s.thrown && dev.calls == old(dev.calls) + s.log
        && (thrown <==> e == null)
        && (!thrown ==> fresh(e) && e.HasFields(name, s.bound))
      ensures dev.state == old(dev.state) && dev.Env() == old(dev.Env()) && dev.nextHandle == old(dev.nextHandle)
    {
      var bound;
      bound, thrown := LoadProperties("PointLightEntity", PointLightFields, props, conv, dev);
      if thrown {
        return null, true;
      }
      e := new PointLightEntity.Bound(name, bound);
    }
  }

  /** The constructor sets the name, but Name is a bindable property too: a `name`
      property (in any case) replaces it, and null if it does not convert to a string. */
  lemma {:induction false} NamePropertyOverrides(className: string, table: FieldTable, props: Dict<string, Value>, conv: Converter, name: string)
    requires !Bind(className, table, props, conv).thrown
    requires LastFor(table, props, "Name").None?
    ensures AsString(Bind(className, table, props, conv).bound, "Name", Some(name)) == Some(name)
  {
    LastWins(className, table, props, conv, "Name");
  }
}
