/** Core/Scene.cs, LoadEntities: each named declaration has its resolve directives
    replaced by resources, then becomes an entity of its type in the scene's
    collections. The loops are proved against folds over the properties (SceneRules)
    and over the declarations (below). */
module EntityLoading {
  import opened Common
  import Dict
  import opened Raylib
  import opened Resources
  import opened Values
  import opened Binding
  import opened Entities
  import opened Interfaces
  import opened SceneRules
  import opened Scenes

  // ---------------------------------------------------------------- property resolution

  /** The body of the inner foreach for one property value: the value to write back
      through the indexer, if any, with the error logged for a missing resource. An
      exception escapes when the conversion throws or the "fallback" entry is missing. */
  method ResolveOne(value: Value, textures: Dict.Dict<string, TextureResource>, models: Dict.Dict<string, ModelResource>,
                    conv: Converter, dev: Device)
    returns (written: Option<Value>, thrown: bool)
    modifies dev
    ensures var r := ResolveValue(value, textures, models, conv);
      && (thrown <==> r.None?)
      && (thrown ==> dev.calls == old(dev.calls))
      && (!thrown ==>
            && dev.calls == old(dev.calls) + r.value.1
            && (if written.Some? then written.value else value) == r.value.0)
    ensures dev.state == old(dev.state) && dev.Env() == old(dev.Env()) && dev.nextHandle == old(dev.nextHandle)
  {
    written := None;
    var p := ConvertToResolve(value, conv);
    if p.None? {
      return None, true;
    }
    if p.value.None? || IsNullOrEmpty(p.value.value.name) {
      return None, false;
    }
    var n := p.value.value.name.value;
    match p.value.value.resolveType {
      case TextureType =>
        written, thrown := ResolveTexture(n, textures, dev);
      case ModelType =>
        written, thrown := ResolveModel(n, models, dev);
      case NoResource =>
        dev.Log(LogError, UnknownResolveTypeMessage(n));
        thrown := false;
    }
  }

  /** The texture case: TryGetValue, else the "fallback" entry through the indexer. */
  method ResolveTexture(n: string, textures: Dict.Dict<string, TextureResource>, dev: Device)
    returns (written: Option<Value>, thrown: bool)
    modifies dev
    ensures var r := TextureDirective(n, textures);
      && (thrown <==> r.None?) && (thrown <==> written.None?)
      && (thrown ==> dev.calls == old(dev.calls))
      && (!thrown ==> dev.calls == old(dev.calls) + r.value.1 && written.value == r.value.0)
    ensures dev.state == old(dev.state) && dev.Env() == old(dev.Env()) && dev.nextHandle == old(dev.nextHandle)
  {
    var t := Dict.Get(textures, n);
    if t.Some? {
      return Some(TextureRef(t.value)), false;
    }
    var f := Dict.Get(textures, "fallback");
    if f.None? {
      return None, true;
    }
    dev.Log(LogError, MissingResourceMessage(n, "texture"));
    return Some(TextureRef(f.value)), false;
  }

  /** The model case, likewise. */
  method ResolveModel(n: string, models: Dict.Dict<string, ModelResource>, dev: Device)
    returns (written: Option<Value>, thrown: bool)
    modifies dev
    ensures var r := ModelDirective(n, models);
      && (thrown <==> r.None?) && (thrown <==> written.None?)
      && (thrown ==> dev.calls == old(dev.calls))
      && (!thrown ==> dev.calls == old(dev.calls) + r.value.1 && written.value == r.value.0)
    ensures dev.state == old(dev.state) && dev.Env() == old(dev.Env()) && dev.nextHandle == old(dev.nextHandle)
  {
    var m := Dict.Get(models, n);
    if m.Some? {
      return Some(ModelRef(m.value)), false;
    }
    var f := Dict.Get(models, "fallback");
    if f.None? {
      return None, true;
    }
    dev.Log(LogError, MissingResourceMessage(n, "model"));
    return Some(ModelRef(f.value)), false;
  }

  /** Where the inner foreach stands after the first i properties: as ResolveFirst says,
      with the log appended to `before`. */
  ghost predicate ResolvedUpTo(props: Dict.Dict<string, Value>, res: Resolutions, i: nat,
                               resolved: Dict.Dict<string, Value>, thrown: bool, calls: seq<GpuCall>, before: seq<GpuCall>)
    requires i <= |props| == |res|
  {
    var r := ResolveFirst(props, res, i);
    && thrown == r.thrown && calls == before + r.log
    && (!thrown ==> resolved == r.props)
  }

  /** The inner foreach over an entity's properties, writing each resolved value back
      into the dictionary being enumerated (an overwrite keeps the key's place, so the
      enumeration sees every original key once). */
  method ResolveProperties(props: Dict.Dict<string, Value>, textures: Dict.Dict<string, TextureResource>,
                           models: Dict.Dict<string, ModelResource>, conv: Converter, dev: Device)
    returns (resolved: Dict.Dict<string, Value>, thrown: bool)
    requires Dict.Valid(props)
    modifies dev
    ensures var r := ResolveFirst(props, ResolveEach(props, textures, models, conv), |props|);
      && thrown == r.thrown && dev.calls == old(dev.calls) + r.log
      && (!thrown ==> resolved == r.props)
    ensures dev.state == old(dev.state) && dev.Env() == old(dev.Env()) && dev.nextHandle == old(dev.nextHandle)
  {
    ghost var res := ResolveEach(props, textures, models, conv);
    resolved, thrown := props, false;
    var i := 0;
    while i < |props| && !thrown
      invariant 0 <= i <= |props|
      invariant ResolvedUpTo(props, res, i, resolved, thrown, dev.calls, old(dev.calls))
      invariant dev.state == old(dev.state) && dev.Env() == old(dev.Env()) && dev.nextHandle == old(dev.nextHandle)
    {
      resolved, thrown := ResolveAt(props, i, resolved, textures, models, conv, dev, old(dev.calls));
      i := i + 1;
    }
    if thrown {
      ResolveStops(props, res, i, |props|);
    }
  }

  /** One pass of the inner foreach: the i-th key, with its value as the enumeration
      sees it, resolved and written back. */
  method ResolveAt(props: Dict.Dict<string, Value>, i: nat, resolved: Dict.Dict<string, Value>,
                   textures: Dict.Dict<string, TextureResource>, models: Dict.Dict<string, ModelResource>,
                   conv: Converter, dev: Device, ghost before: seq<GpuCall>)
    returns (next: Dict.Dict<string, Value>, thrown: bool)
    requires Dict.Valid(props) && i < |props|
    requires ResolvedUpTo(props, ResolveEach(props, textures, models, conv), i, resolved, false, dev.calls, before)
    modifies dev
    ensures ResolvedUpTo(props, ResolveEach(props, textures, models, conv), i + 1, next, thrown, dev.calls, before)
    ensures dev.state == old(dev.state) && dev.Env() == old(dev.Env()) && dev.nextHandle == old(dev.nextHandle)
  {
    ghost var res := ResolveEach(props, textures, models, conv);
    ResolvedInPlace(props, res, i);
    var (name, value) := resolved[i];
    assert (name, value) == props[i];
    assert res[i] == ResolveValue(value, textures, models, conv);
    ghost var prior := ResolveFirst(props, res, i);
    var written;
    written, thrown := ResolveOne(value, textures, models, conv, dev);
    next := resolved;
    if thrown {
      assert ResolveFirst(props, res, i + 1) == prior.(thrown := true);
    } else {
      if written.Some? {
        next := Dict.Put(resolved, name, written.value);
      } else {
        Dict.PutInPlace(resolved, i, value);
        assert resolved[i := (name, value)] == resolved;
      }
      IndexerOverwritesInPlace(props, res, i + 1);
      assert ResolveFirst(props, res, i + 1).log == prior.log + res[i].value.1;
      AppendAssoc(before, prior.log, res[i].value.1);
    }
  }

  /** Once an exception escapes, later properties change nothing. */
  lemma {:induction false} ResolveStops(props: Dict.Dict<string, Value>, res: Resolutions, i: nat, n: nat)
    requires i <= n <= |props| == |res| && ResolveFirst(props, res, i).thrown
    ensures ResolveFirst(props, res, n) == ResolveFirst(props, res, i)
    decreases n - i
  {
    if n > i {
      ResolveStops(props, res, i, n - 1);
    }
  }

  // ---------------------------------------------------------------- the fold over declarations

  /** Everything the entity loop depends on besides the declarations: the resource
      tables LoadResources left, the converter, the scene's base path, File.Exists, the
      pipeline's default shader, and the current value of each texture a world could
      give its chunk (texture resources are not changed while entities load). */
  datatype EntityContext = EntityContext(
    textures: Dict.Dict<string, TextureResource>,
    models: Dict.Dict<string, ModelResource>,
    conv: Converter,
    basePath: string,
    fileExists: string -> bool,
    pipelineShader: Option<Shader>,
    tex: map<TextureResource, Texture2D>)

  /** The inner foreach over a declaration's properties. */
  function Resolved(d: EntityMetadata, ctx: EntityContext): Resolving {
    ResolveFirst(d.properties, ResolveEach(d.properties, ctx.textures, ctx.models, ctx.conv), |d.properties|)
  }

  const BadEntityNameMessage := "[Scene]: Couldn't load entity resource. Bad entity name!"

  function UnknownEntityMessage(name: string): string {
    "[Scene]: Couldn't load entity resource \"" + name + "\". Unknown entity type!"
  }

  /** The texture a world binds to one of its texture fields. */
  function WorldTexture(bound: map<string, Value>, f: string): TextureResource? {
    AsTexture(bound, f, null)
  }

  /** The textures a declaration, bound as a world, gives its chunk. */
  function WorldTextures(d: EntityMetadata, ctx: EntityContext): set<TextureResource> {
    BoundTextures(Bind("WorldEntity", WorldFields, Resolved(d, ctx).props, ctx.conv).bound)
  }

  function BoundTextures(bound: map<string, Value>): set<TextureResource> {
    Present(WorldTexture(bound, "DiffuseTexture")) + Present(WorldTexture(bound, "NormalTexture"))
    + Present(WorldTexture(bound, "SpecularTexture"))
  }

  function Present(t: TextureResource?): set<TextureResource> {
    if t == null then {} else {t}
  }

  /** The SetMaterialTexture call for one map of a chunk, with the texture's value
      taken from `tex`. */
  function MapCall(t: TextureResource?, m: MaterialMap, tex: map<TextureResource, Texture2D>): seq<GpuCall> {
    if t != null && t in tex then [GpuCall.SetMaterialTexture(0, m, tex[t])] else []
  }

  /** The chunk texture calls of a world bound as `bound`. */
  function WorldTextureCalls(bound: map<string, Value>, tex: map<TextureResource, Texture2D>): seq<GpuCall> {
    MapCall(WorldTexture(bound, "DiffuseTexture"), DiffuseMap, tex)
    + MapCall(WorldTexture(bound, "NormalTexture"), NormalMap, tex)
    + MapCall(WorldTexture(bound, "SpecularTexture"), SpecularMap, tex)
  }

  /** Where the outer foreach stands: the calls so far, the next handle, and whether an
      exception escaped. */
  datatype Populating = Populating(log: seq<GpuCall>, next: Handle, thrown: bool)

  /** The type switch for a declaration whose properties resolved to `props`: this
      entity's calls, the next handle after it, and whether its constructor throws. A
      world binds, checks its map file, then loads the map image (handle next + 1) and
      builds its chunk mesh (handle next + 2). */
  function Construction(t: EntityType, name: string, props: Dict.Dict<string, Value>, ctx: EntityContext, next: Handle): (r: Populating)
    ensures r.next == if !r.thrown && t == WorldType then next + 2 else next
  {
    match t
    case UnknownEntity => Populating([TraceLog(LogError, UnknownEntityMessage(name))], next, false)
    case WorldType =>
      var b := Bind("WorldEntity", WorldFields, props, ctx.conv);
      var file := MapFile(ctx.basePath, AsString(b.bound, "MapPath", None));
      if b.thrown || !ctx.fileExists(file) then Populating(b.log, next, true)
      else
        Populating(b.log + [LoadImage(file, next + 1)]
                   + ChunkModelCalls(next + 1, Mesh(next + 2, 0, false), ctx.pipelineShader)
                   + WorldTextureCalls(b.bound, ctx.tex),
                   next + 2, false)
    case _ =>
      var b := BindingOf(t, props, ctx.conv);
      Populating(b.log, next, b.thrown)
  }

  /** What a named declaration does: its properties resolved, then the type switch. */
  function DeclOutcome(d: EntityMetadata, ctx: EntityContext, next: Handle): Populating
    requires IsNamed(d)
  {
    var r := Resolved(d, ctx);
    if r.thrown then Populating(r.log, next, true)
    else
      var c := Construction(d.entityType, d.name.value, r.props, ctx, next);
      Populating(r.log + c.log, c.next, c.thrown)
  }

  /** One pass of the outer foreach: a declaration without a name is skipped with an
      error. */
  function EntityStep(st: Populating, d: EntityMetadata, ctx: EntityContext): Populating {
    if st.thrown then st
    else if !IsNamed(d) then st.(log := st.log + [TraceLog(LogError, BadEntityNameMessage)])
    else
      var o := DeclOutcome(d, ctx, st.next);
      Populating(st.log + o.log, o.next, o.thrown)
  }

  /** The outer foreach over the first n declarations, from handle h on. */
  function EntityFirst(ds: seq<EntityMetadata>, ctx: EntityContext, h: Handle, n: nat): Populating
    requires n <= |ds|
  {
    if n == 0 then Populating([], h, false)
    else EntityStep(EntityFirst(ds, ctx, h, n - 1), ds[n - 1], ctx)
  }

  // ---------------------------------------------------------------- what the collections hold

  /** IsMain as a camera bound to `props` has it. */
  function MainFlag(props: Dict.Dict<string, Value>, conv: Converter): bool {
    AsBool(Bind("CameraEntity", CameraFields, props, conv).bound, "IsMain", false)
  }

  /** `after` is `before` with one element added at the end when `grows`, else `before`. */
  predicate Extends<T(==)>(before: seq<T>, after: seq<T>, grows: bool) {
    if grows then |after| == |before| + 1 && after[..|before|] == before else after == before
  }

  /** A renderable of the kind of type t whose fields are those a binding that assigned
      `bound` leaves in an entity named `name`. */
  predicate BoundRenderable(r: Renderable, t: EntityType, name: string, bound: map<string, Value>) {
    match r
    case StaticRenderable(e) => t == StaticType && e.HasFields(name, bound)
    case DynamicRenderable(e) => t == DynamicType && e.HasFields(name, bound)
    case WorldRenderable(w) => t == WorldType && w.HasFields(name, bound)
  }

  /** What the type switch adds for an entity of type t named `name` whose binding
      assigned `bound`: a renderable of that kind, a camera or a point light, with the
      fields that binding leaves; nothing for an unknown type. */
  predicate Added(rs0: seq<Renderable>, cs0: seq<CameraEntity>, ps0: seq<PointLightEntity>,
                  rs: seq<Renderable>, cs: seq<CameraEntity>, ps: seq<PointLightEntity>,
                  t: EntityType, name: string, bound: map<string, Value>)
    reads cs
  {
    && Extends(rs0, rs, t in RenderableTypes) && (t in RenderableTypes ==> BoundRenderable(rs[|rs0|], t, name, bound))
    && Extends(cs0, cs, t == CameraType) && (t == CameraType ==> cs[|cs0|].HasFields(name, bound))
    && Extends(ps0, ps, t == PointLightType) && (t == PointLightType ==> ps[|ps0|].HasFields(name, bound))
  }

  // ---------------------------------------------------------------- the type switch

  /** The texture values in `tex` are the textures' current values. */
  ghost predicate TexturesAre(tex: map<TextureResource, Texture2D>)
    reads tex.Keys
  {
    forall t :: t in tex ==> t.texture == tex[t]
  }

  /** With every texture a world binds among the snapshot, its chunk's texture calls are
      the ones the fold records. */
  lemma SnapshotTextureCalls(bound: map<string, Value>, tex: map<TextureResource, Texture2D>)
    requires TexturesAre(tex) && BoundTextures(bound) <= tex.Keys
    ensures ChunkTextureCalls(WorldTexture(bound, "DiffuseTexture"), WorldTexture(bound, "NormalTexture"),
                              WorldTexture(bound, "SpecularTexture"))
         == WorldTextureCalls(bound, tex)
  {
  }

  /** `new StaticEntity(name, props)`, added to the renderables. */
  method LoadStatic(s: Scene, name: string, props: Dict.Dict<string, Value>, conv: Converter, dev: Device)
    returns (thrown: bool)
    requires s.Valid()
    modifies s`renderables, s`worlds, s`renderModels, dev
    ensures var b := Bind("StaticEntity", StaticFields, props, conv);
      thrown == b.thrown && dev.calls == old(dev.calls) + b.log
    ensures !thrown ==> Added(old(s.renderables), s.cameras, s.pointLights, s.renderables, s.cameras, s.pointLights, StaticType, name,
                          Bind("StaticEntity", StaticFields, props, conv).bound)
    ensures s.Valid()
    ensures dev.state == old(dev.state) && dev.Env() == old(dev.Env()) && dev.nextHandle == old(dev.nextHandle)
  {
    var e;
    e, thrown := StaticEntity.FromProperties("StaticEntity", name, props, conv, dev);
    if thrown {
      return;
    }
    AddRenderable(s, StaticRenderable(e), {}, if e.model != null then {e.model} else {});
  }

  /** `new DynamicEntity(name, props)`, added to the renderables. */
  method LoadDynamic(s: Scene, name: string, props: Dict.Dict<string, Value>, conv: Converter, dev: Device)
    returns (thrown: bool)
    requires s.Valid()
    modifies s`renderables, s`worlds, s`renderModels, dev
    ensures var b := Bind("DynamicEntity", StaticFields, props, conv);
      thrown == b.thrown && dev.calls == old(dev.calls) + b.log
    ensures !thrown ==> Added(old(s.renderables), s.cameras, s.pointLights, s.renderables, s.cameras, s.pointLights, DynamicType, name,
                          Bind("DynamicEntity", StaticFields, props, conv).bound)
    ensures s.Valid()
    ensures dev.state == old(dev.state) && dev.Env() == old(dev.Env()) && dev.nextHandle == old(dev.nextHandle)
  {
    var e;
    e, thrown := DynamicEntity.FromProperties(name, props, conv, dev);
    if thrown {
      return;
    }
    AddRenderable(s, DynamicRenderable(e), {}, if e.base.model != null then {e.base.model} else {});
  }

  /** `new WorldEntity(name, props, BasePath)`, added to the renderables. */
  method LoadWorld(s: Scene, name: string, props: Dict.Dict<string, Value>, ghost ctx: EntityContext,
                   fileExists: string -> bool, pipelineShader: Option<Shader>, conv: Converter, dev: Device)
    returns (thrown: bool)
    requires s.Valid()
    requires ctx.conv == conv && ctx.basePath == s.basePath && ctx.fileExists == fileExists && ctx.pipelineShader == pipelineShader
    requires TexturesAre(ctx.tex) && BoundTextures(Bind("WorldEntity", WorldFields, props, conv).bound) <= ctx.tex.Keys
    modifies s`renderables, s`worlds, s`renderModels, dev
    ensures var c := Construction(WorldType, name, props, ctx, old(dev.nextHandle));
      thrown == c.thrown && dev.calls == old(dev.calls) + c.log && dev.nextHandle == c.next
    ensures !thrown ==> Added(old(s.renderables), s.cameras, s.pointLights, s.renderables, s.cameras, s.pointLights, WorldType, name,
                          Bind("WorldEntity", WorldFields, props, conv).bound)
    ensures s.Valid()
    ensures dev.state == old(dev.state) && dev.Env() == old(dev.Env())
  {
    var w;
    w, thrown := CreateWorld(name, props, s.basePath, ctx, fileExists, pipelineShader, conv, dev);
    if thrown {
      return;
    }
    AddRenderable(s, WorldRenderable(w), {w}, w.models);
  }

  /** The world's constructor, with its calls as the fold records them. */
  method CreateWorld(name: string, props: Dict.Dict<string, Value>, basePath: string, ghost ctx: EntityContext,
                     fileExists: string -> bool, pipelineShader: Option<Shader>, conv: Converter, dev: Device)
    returns (w: WorldEntity?, thrown: bool)
    requires ctx.conv == conv && ctx.basePath == basePath && ctx.fileExists == fileExists && ctx.pipelineShader == pipelineShader
    requires TexturesAre(ctx.tex) && BoundTextures(Bind("WorldEntity", WorldFields, props, conv).bound) <= ctx.tex.Keys
    modifies dev
    ensures var c := Construction(WorldType, name, props, ctx, old(dev.nextHandle));
      thrown == c.thrown && dev.calls == old(dev.calls) + c.log && dev.nextHandle == c.next
    ensures !thrown ==> w != null && fresh(w) && w.Valid() && w.HasFields(name, Bind("WorldEntity", WorldFields, props, conv).bound)
    ensures dev.state == old(dev.state) && dev.Env() == old(dev.Env())
  {
    ghost var b := Bind("WorldEntity", WorldFields, props, conv);
    w, thrown := WorldEntity.Create(name, props, basePath, fileExists, pipelineShader, conv, dev);
    if thrown {
      return;
    }
    SnapshotTextureCalls(b.bound, ctx.tex);
    ghost var image := old(dev.nextHandle) + 1;
    WorldLog(old(dev.calls), b.log, [LoadImage(MapFile(basePath, w.mapPath), image)],
             ChunkModelCalls(image, Mesh(image + 1, 0, false), pipelineShader), WorldTextureCalls(b.bound, ctx.tex));
  }

  /** `new CameraEntity(name, props)`, added to the cameras and the updatables. */
  method LoadCamera(s: Scene, name: string, props: Dict.Dict<string, Value>, conv: Converter, dev: Device)
    returns (thrown: bool)
    requires s.Valid()
    modifies s`cameras, s`updatables, dev
    ensures var b := Bind("CameraEntity", CameraFields, props, conv);
      thrown == b.thrown && dev.calls == old(dev.calls) + b.log
    ensures !thrown ==> Added(s.renderables, old(s.cameras), s.pointLights, s.renderables, s.cameras, s.pointLights, CameraType, name,
                          Bind("CameraEntity", CameraFields, props, conv).bound)
    ensures s.Valid()
    ensures dev.state == old(dev.state) && dev.Env() == old(dev.Env()) && dev.nextHandle == old(dev.nextHandle)
  {
    var c;
    c, thrown := CameraEntity.FromProperties(name, props, conv, dev);
    if thrown {
      return;
    }
    AddCamera(s, c);
  }

  /** `new PointLightEntity(name, props)`, added to the point lights. */
  method LoadPointLight(s: Scene, name: string, props: Dict.Dict<string, Value>, conv: Converter, dev: Device)
    returns (thrown: bool)
    requires s.Valid()
    modifies s`pointLights, dev
    ensures var b := Bind("PointLightEntity", PointLightFields, props, conv);
      thrown == b.thrown && dev.calls == old(dev.calls) + b.log
    ensures !thrown ==> Added(s.renderables, s.cameras, old(s.pointLights), s.renderables, s.cameras, s.pointLights, PointLightType, name,
                          Bind("PointLightEntity", PointLightFields, props, conv).bound)
    ensures s.Valid()
    ensures dev.state == old(dev.state) && dev.Env() == old(dev.Env()) && dev.nextHandle == old(dev.nextHandle)
  {
    var p;
    p, thrown := PointLightEntity.FromProperties(name, props, conv, dev);
    if thrown {
      return;
    }
    assert p !in s.pointLights;
    s.pointLights := Insert(s.pointLights, p);
  }

  /** The associativity the world's log needs. */
  lemma WorldLog<T>(a: seq<T>, b: seq<T>, c: seq<T>, d: seq<T>, e: seq<T>)
    ensures a + b + c + (d + e) == a + (b + c + d + e)
  {
    calc {
      a + b + c + (d + e);
      == { AppendAssoc(a + b + c, d, e); }
      a + b + c + d + e;
      == { AppendAssoc(a, b, c); AppendAssoc(a, b + c, d); AppendAssoc(a, b + c + d, e); }
      a + (b + c + d + e);
    }
  }

  /** HashSet.Add of a renderable not there yet: it renders with the objects among the
      scene's worlds and models together with `ws` and `ms`, which join them. */
  method AddRenderable(s: Scene, r: Renderable, ghost ws: set<WorldEntity>, ghost ms: set<ModelResource>)
    requires s.Valid() && r !in s.renderables
    requires ReadyIn(r, s.worlds + ws, s.renderModels + ms)
    modifies s`renderables, s`worlds, s`renderModels
    ensures s.renderables == old(s.renderables) + [r]
    ensures s.worlds == old(s.worlds) + ws && s.renderModels == old(s.renderModels) + ms
    ensures s.Valid()
  {
    s.renderables := Insert(s.renderables, r);
    s.worlds := s.worlds + ws;
    s.renderModels := s.renderModels + ms;
  }

  /** HashSet.Add of a camera not there yet, to the cameras and to the updatables. */
  method AddCamera(s: Scene, c: CameraEntity)
    requires s.Valid() && c !in s.cameras
    modifies s`cameras, s`updatables
    ensures s.cameras == old(s.cameras) + [c]
    ensures s.Valid()
  {
    s.cameras := Insert(s.cameras, c);
    s.updatables := Insert(s.updatables, CameraUpdatable(c));
    assert s.updatables == AsUpdatables(s.cameras);
  }

  /** The type switch of LoadEntities. */
  method Construct(s: Scene, t: EntityType, name: string, props: Dict.Dict<string, Value>, ghost ctx: EntityContext,
                   fileExists: string -> bool, pipelineShader: Option<Shader>, conv: Converter, dev: Device)
    returns (thrown: bool)
    requires s.Valid()
    requires ctx.conv == conv && ctx.basePath == s.basePath && ctx.fileExists == fileExists && ctx.pipelineShader == pipelineShader
    requires TexturesAre(ctx.tex) && BoundTextures(Bind("WorldEntity", WorldFields, props, conv).bound) <= ctx.tex.Keys
    modifies s`renderables, s`worlds, s`renderModels, s`cameras, s`updatables, s`pointLights, dev
    ensures var c := Construction(t, name, props, ctx, old(dev.nextHandle));
      thrown == c.thrown && dev.calls == old(dev.calls) + c.log && dev.nextHandle == c.next
    ensures !thrown ==>
      Added(old(s.renderables), old(s.cameras), old(s.pointLights), s.renderables, s.cameras, s.pointLights, t, name,
            BindingOf(t, props, conv).bound)
    ensures s.Valid()
    ensures dev.state == old(dev.state) && dev.Env() == old(dev.Env())
  {
    match t {
      case StaticType =>
        thrown := LoadStatic(s, name, props, conv, dev);
      case DynamicType =>
        thrown := LoadDynamic(s, name, props, conv, dev);
      case WorldType =>
        thrown := LoadWorld(s, name, props, ctx, fileExists, pipelineShader, conv, dev);
      case CameraType =>
        thrown := LoadCamera(s, name, props, conv, dev);
      case PointLightType =>
        thrown := LoadPointLight(s, name, props, conv, dev);
      case UnknownEntity =>
        dev.Log(LogError, UnknownEntityMessage(name));
        thrown := false;
    }
  }

  // ---------------------------------------------------------------- the outer foreach

  /** The collections after the declarations `ds`, none of which threw, in declaration
      order: one renderable per named Static, Dynamic or World declaration, one camera
      per named Camera declaration and one point light per named PointLight
      declaration, each of its declaration's type, with its declaration's name, and with
      the fields its declaration's resolved properties bind. The cameras' IsMain flags
      are also stated on their own, for the main-camera rule. */
  predicate Collected(rs: seq<Renderable>, cs: seq<CameraEntity>, ps: seq<PointLightEntity>,
                      ds: seq<EntityMetadata>, ctx: EntityContext)
    reads cs
  {
    && RenderablesFrom(rs, Entries(Declared(ds, RenderableTypes), ctx))
    && CamerasFrom(cs, Entries(Declared(ds, {CameraType}), ctx)) && MainsFrom(cs, MainFlags(Declared(ds, {CameraType}), ctx))
    && LightsFrom(ps, Entries(Declared(ds, {PointLightType}), ctx))
  }

  /** The name a declaration passes to its entity's constructor. */
  function NameOf(d: EntityMetadata): string {
    if d.name.Some? then d.name.value else ""
  }

  /** What binding a declaration's resolved properties assigns, for its type. */
  function BoundOf(d: EntityMetadata, ctx: EntityContext): map<string, Value> {
    BindingOf(d.entityType, Resolved(d, ctx).props, ctx.conv).bound
  }

  /** A declaration as its entity's fields see it: its type, its name and what its
      binding assigns. */
  datatype Entry = Entry(t: EntityType, name: string, bound: map<string, Value>)

  /** The entry of each declaration, in order. */
  function Entries(ds: seq<EntityMetadata>, ctx: EntityContext): (r: seq<Entry>)
    ensures |r| == |ds|
    decreases |ds|
  {
    if ds == [] then []
    else Entries(ds[..|ds| - 1], ctx) + [EntryOf(ds[|ds| - 1], ctx)]
  }

  function EntryOf(d: EntityMetadata, ctx: EntityContext): Entry {
    Entry(d.entityType, NameOf(d), BoundOf(d, ctx))
  }

  predicate RenderablesFrom(rs: seq<Renderable>, es: seq<Entry>) {
    |rs| == |es| && forall k :: 0 <= k < |rs| ==> BoundRenderable(rs[k], es[k].t, es[k].name, es[k].bound)
  }

  predicate CamerasFrom(cs: seq<CameraEntity>, es: seq<Entry>)
    reads cs
  {
    |cs| == |es| && forall k :: 0 <= k < |cs| ==> cs[k].HasFields(es[k].name, es[k].bound)
  }

  predicate MainsFrom(cs: seq<CameraEntity>, flags: seq<bool>) {
    |cs| == |flags| && forall k :: 0 <= k < |cs| ==> cs[k].isMain == flags[k]
  }

  predicate LightsFrom(ps: seq<PointLightEntity>, es: seq<Entry>) {
    |ps| == |es| && forall k :: 0 <= k < |ps| ==> ps[k].HasFields(es[k].name, es[k].bound)
  }

  /** The IsMain each camera declaration binds, in order. */
  function MainFlags(dcs: seq<EntityMetadata>, ctx: EntityContext): (r: seq<bool>)
    ensures |r| == |dcs|
    decreases |dcs|
  {
    if dcs == [] then []
    else MainFlags(dcs[..|dcs| - 1], ctx) + [MainFlag(Resolved(dcs[|dcs| - 1], ctx).props, ctx.conv)]
  }

  /** One more declaration: a skipped one adds nothing, a named one what its type adds. */
  lemma CollectedStep(rs0: seq<Renderable>, cs0: seq<CameraEntity>, ps0: seq<PointLightEntity>,
                      rs: seq<Renderable>, cs: seq<CameraEntity>, ps: seq<PointLightEntity>,
                      ds: seq<EntityMetadata>, i: nat, ctx: EntityContext)
    requires i < |ds| && Collected(rs0, cs0, ps0, ds[..i], ctx)
    requires !IsNamed(ds[i]) ==> rs == rs0 && cs == cs0 && ps == ps0
    requires IsNamed(ds[i]) ==>
      Added(rs0, cs0, ps0, rs, cs, ps, ds[i].entityType, NameOf(ds[i]), BoundOf(ds[i], ctx))
    ensures Collected(rs, cs, ps, ds[..i + 1], ctx)
  {
    var t := ds[i].entityType;
    var named := IsNamed(ds[i]);
    var e := EntryOf(ds[i], ctx);
    EntriesAfter(ds, i, RenderableTypes, ctx);
    EntriesAfter(ds, i, {CameraType}, ctx);
    EntriesAfter(ds, i, {PointLightType}, ctx);
    RenderablesStep(rs0, rs, Entries(Declared(ds[..i], RenderableTypes), ctx), e, named && t in RenderableTypes);
    CamerasStep(cs0, cs, Entries(Declared(ds[..i], {CameraType}), ctx), e, named && t == CameraType);
    LightsStep(ps0, ps, Entries(Declared(ds[..i], {PointLightType}), ctx), e, named && t == PointLightType);
    MainsAfter(cs0, cs, ds, i, ctx);
  }

  /** The entries of the kept declarations among one more: one more entry when the new
      declaration is kept. */
  lemma EntriesAfter(ds: seq<EntityMetadata>, i: nat, types: set<EntityType>, ctx: EntityContext)
    requires i < |ds|
    ensures Entries(Declared(ds[..i + 1], types), ctx) ==
      Entries(Declared(ds[..i], types), ctx) + if IsNamed(ds[i]) && ds[i].entityType in types then [EntryOf(ds[i], ctx)] else []
  {
    DeclaredStep(ds, i, types);
    var dts := Declared(ds[..i], types);
    if IsNamed(ds[i]) && ds[i].entityType in types {
      assert (dts + [ds[i]])[..|dts|] == dts;
    } else {
      assert dts + [] == dts;
    }
  }

  /** The IsMain flags of the cameras after one more declaration. */
  lemma MainsAfter(cs0: seq<CameraEntity>, cs: seq<CameraEntity>, ds: seq<EntityMetadata>, i: nat, ctx: EntityContext)
    requires i < |ds| && MainsFrom(cs0, MainFlags(Declared(ds[..i], {CameraType}), ctx))
    requires Extends(cs0, cs, IsNamed(ds[i]) && ds[i].entityType == CameraType)
    requires IsNamed(ds[i]) && ds[i].entityType == CameraType ==> cs[|cs0|].isMain == MainFlag(Resolved(ds[i], ctx).props, ctx.conv)
    ensures MainsFrom(cs, MainFlags(Declared(ds[..i + 1], {CameraType}), ctx))
  {
    DeclaredStep(ds, i, {CameraType});
    var dcs := Declared(ds[..i], {CameraType});
    var f := MainFlag(Resolved(ds[i], ctx).props, ctx.conv);
    var adds := IsNamed(ds[i]) && ds[i].entityType == CameraType;
    if adds {
      assert (dcs + [ds[i]])[..|dcs|] == dcs;
      assert MainFlags(dcs + [ds[i]], ctx) == MainFlags(dcs, ctx) + [f];
    } else {
      assert Declared(ds[..i + 1], {CameraType}) == dcs;
      assert MainFlags(dcs, ctx) + [] == MainFlags(dcs, ctx);
    }
    MainsStep(cs0, cs, MainFlags(dcs, ctx), f, adds);
  }

  lemma RenderablesStep(rs0: seq<Renderable>, rs: seq<Renderable>, es: seq<Entry>, e: Entry, adds: bool)
    requires RenderablesFrom(rs0, es) && Extends(rs0, rs, adds) && (adds ==> BoundRenderable(rs[|rs0|], e.t, e.name, e.bound))
    ensures RenderablesFrom(rs, es + if adds then [e] else [])
  {
    if adds {
      forall k | 0 <= k < |rs0|
        ensures rs[k] == rs0[k]
      {
        assert rs[k] == rs[..|rs0|][k];
      }
    }
  }

  lemma CamerasStep(cs0: seq<CameraEntity>, cs: seq<CameraEntity>, es: seq<Entry>, e: Entry, adds: bool)
    requires CamerasFrom(cs0, es) && Extends(cs0, cs, adds) && (adds ==> cs[|cs0|].HasFields(e.name, e.bound))
    ensures CamerasFrom(cs, es + if adds then [e] else [])
  {
    if adds {
      forall k | 0 <= k < |cs0|
        ensures cs[k] == cs0[k]
      {
        assert cs[k] == cs[..|cs0|][k];
      }
    }
  }

  lemma MainsStep(cs0: seq<CameraEntity>, cs: seq<CameraEntity>, flags: seq<bool>, f: bool, adds: bool)
    requires MainsFrom(cs0, flags) && Extends(cs0, cs, adds) && (adds ==> cs[|cs0|].isMain == f)
    ensures MainsFrom(cs, flags + if adds then [f] else [])
  {
    if adds {
      forall k | 0 <= k < |cs0|
        ensures cs[k] == cs0[k]
      {
        assert cs[k] == cs[..|cs0|][k];
      }
    }
  }

  lemma LightsStep(ps0: seq<PointLightEntity>, ps: seq<PointLightEntity>, es: seq<Entry>, e: Entry, adds: bool)
    requires LightsFrom(ps0, es) && Extends(ps0, ps, adds) && (adds ==> ps[|ps0|].HasFields(e.name, e.bound))
    ensures LightsFrom(ps, es + if adds then [e] else [])
  {
    if adds {
      forall k | 0 <= k < |ps0|
        ensures ps[k] == ps0[k]
      {
        assert ps[k] == ps[..|ps0|][k];
      }
    }
  }

  /** The resolved properties of every declaration are a dictionary's, and every texture
      a world declaration could bind is in the snapshot. */
  predicate Covered(ds: seq<EntityMetadata>, ctx: EntityContext) {
    forall k :: 0 <= k < |ds| ==> Dict.Valid(ds[k].properties) && WorldTextures(ds[k], ctx) <= ctx.tex.Keys
  }

  /** The scene and the parameters are the ones the fold is about. */
  ghost predicate Matches(s: Scene, ctx: EntityContext, conv: Converter, fileExists: string -> bool, pipelineShader: Option<Shader>)
    reads s
  {
    && s.textures == ctx.textures && s.models == ctx.models && s.basePath == ctx.basePath
    && ctx.conv == conv && ctx.fileExists == fileExists && ctx.pipelineShader == pipelineShader
  }

  /** Where the outer foreach stands after the first i declarations, from handle h on,
      with the log appended to `before`. */
  ghost predicate Populated(s: Scene, dev: Device, ds: seq<EntityMetadata>, ctx: EntityContext, h: Handle, i: nat,
                            thrown: bool, before: seq<GpuCall>)
    requires i <= |ds|
    reads s, s.cameras, dev
  {
    var st := EntityFirst(ds, ctx, h, i);
    thrown == st.thrown && PopulatedAt(s, dev, ds, ctx, st, i, before)
  }

  /** The log, the next handle and the collections are those of fold state `st` after
      the first i declarations. */
  ghost predicate PopulatedAt(s: Scene, dev: Device, ds: seq<EntityMetadata>, ctx: EntityContext, st: Populating, i: nat,
                              before: seq<GpuCall>)
    requires i <= |ds|
    reads s, s.cameras, dev
  {
    && dev.calls == before + st.log && dev.nextHandle == st.next
    && (!st.thrown ==> Collected(s.renderables, s.cameras, s.pointLights, ds[..i], ctx))
  }

  /** What every pass keeps: a valid scene that is the one the fold is about. */
  ghost predicate Steady(s: Scene, ctx: EntityContext, conv: Converter, fileExists: string -> bool, pipelineShader: Option<Shader>)
    reads s, s.worlds
  {
    s.Valid() && Matches(s, ctx, conv, fileExists, pipelineShader)
  }

  /** The loop state of the outer foreach. */
  ghost predicate Walking(s: Scene, dev: Device, ds: seq<EntityMetadata>, ctx: EntityContext, h: Handle, i: nat,
                          thrown: bool, before: seq<GpuCall>, fileExists: string -> bool, pipelineShader: Option<Shader>,
                          conv: Converter)
    reads s, s.worlds, s.cameras, dev
  {
    && i <= |ds| && Populated(s, dev, ds, ctx, h, i, thrown, before)
    && Steady(s, ctx, conv, fileExists, pipelineShader)
  }

  /** The state after one more pass is the loop state one declaration further. */
  lemma WalkingStep(s: Scene, dev: Device, ds: seq<EntityMetadata>, ctx: EntityContext, h: Handle, i: nat,
                    thrown: bool, before: seq<GpuCall>, fileExists: string -> bool, pipelineShader: Option<Shader>,
                    conv: Converter)
    requires i < |ds|
    requires var next := EntityStep(EntityFirst(ds, ctx, h, i), ds[i], ctx);
      thrown == next.thrown && PopulatedAt(s, dev, ds, ctx, next, i + 1, before)
    requires Steady(s, ctx, conv, fileExists, pipelineShader)
    ensures Walking(s, dev, ds, ctx, h, i + 1, thrown, before, fileExists, pipelineShader, conv)
  {
  }

  /** One pass of the outer foreach from fold state `st`: an unnamed declaration is
      logged and skipped, a named one loaded. */
  method LoadEntity(s: Scene, ds: seq<EntityMetadata>, i: nat, ghost ctx: EntityContext, ghost st: Populating,
                    ghost before: seq<GpuCall>, fileExists: string -> bool, pipelineShader: Option<Shader>,
                    conv: Converter, dev: Device)
    returns (thrown: bool)
    requires i < |ds| && !st.thrown && PopulatedAt(s, dev, ds, ctx, st, i, before)
    requires Steady(s, ctx, conv, fileExists, pipelineShader) && TexturesAre(ctx.tex) && Covered(ds, ctx)
    modifies s`renderables, s`worlds, s`renderModels, s`cameras, s`updatables, s`pointLights, dev
    ensures var next := EntityStep(st, ds[i], ctx);
      thrown == next.thrown && PopulatedAt(s, dev, ds, ctx, next, i + 1, before)
    ensures Steady(s, ctx, conv, fileExists, pipelineShader)
    ensures dev.state == old(dev.state) && dev.Env() == old(dev.Env())
  {
    if IsNullOrWhiteSpace(ds[i].name) {
      SkipUnnamed(s, ds, i, ctx, st, before, dev);
      assert unchanged(s) && unchanged(s.worlds);
      return false;
    }
    thrown := LoadKept(s, ds, i, ctx, st, before, fileExists, pipelineShader, conv, dev);
  }

  /** The pass for a declaration without a name: an error, and nothing added. */
  method SkipUnnamed(s: Scene, ds: seq<EntityMetadata>, i: nat, ghost ctx: EntityContext, ghost st: Populating,
                     ghost before: seq<GpuCall>, dev: Device)
    requires i < |ds| && !IsNamed(ds[i]) && !st.thrown && PopulatedAt(s, dev, ds, ctx, st, i, before)
    modifies dev
    ensures var next := EntityStep(st, ds[i], ctx); !next.thrown && PopulatedAt(s, dev, ds, ctx, next, i + 1, before)
    ensures dev.state == old(dev.state) && dev.Env() == old(dev.Env())
  {
    ghost var rs0, cs0, ps0 := s.renderables, s.cameras, s.pointLights;
    dev.Log(LogError, BadEntityNameMessage);
    AppendAssoc(before, st.log, [TraceLog(LogError, BadEntityNameMessage)]);
    CollectedStep(rs0, cs0, ps0, rs0, cs0, ps0, ds, i, ctx);
  }

  /** The pass for a named declaration. */
  method LoadKept(s: Scene, ds: seq<EntityMetadata>, i: nat, ghost ctx: EntityContext, ghost st: Populating,
                  ghost before: seq<GpuCall>, fileExists: string -> bool, pipelineShader: Option<Shader>,
                  conv: Converter, dev: Device)
    returns (thrown: bool)
    requires i < |ds| && IsNamed(ds[i]) && !st.thrown && PopulatedAt(s, dev, ds, ctx, st, i, before)
    requires Steady(s, ctx, conv, fileExists, pipelineShader)
    requires TexturesAre(ctx.tex) && Dict.Valid(ds[i].properties) && WorldTextures(ds[i], ctx) <= ctx.tex.Keys
    modifies s`renderables, s`worlds, s`renderModels, s`cameras, s`updatables, s`pointLights, dev
    ensures var next := EntityStep(st, ds[i], ctx);
      thrown == next.thrown && PopulatedAt(s, dev, ds, ctx, next, i + 1, before)
    ensures Steady(s, ctx, conv, fileExists, pipelineShader)
    ensures dev.state == old(dev.state) && dev.Env() == old(dev.Env())
  {
    ghost var calls0 := dev.calls;
    ghost var rs0, cs0, ps0 := s.renderables, s.cameras, s.pointLights;
    thrown := LoadNamed(s, ds[i], ctx, fileExists, pipelineShader, conv, dev);
    assert Matches(s, ctx, conv, fileExists, pipelineShader) by {
      assert s.textures == old(s.textures) && s.models == old(s.models);
    }
    NamedStep(s, dev, ds, ctx, st, i, before, calls0, rs0, cs0, ps0, thrown);
  }

  /** The state after a named declaration's pass is the fold's after one more step. */
  lemma NamedStep(s: Scene, dev: Device, ds: seq<EntityMetadata>, ctx: EntityContext, st: Populating, i: nat,
                  before: seq<GpuCall>, calls0: seq<GpuCall>,
                  rs0: seq<Renderable>, cs0: seq<CameraEntity>, ps0: seq<PointLightEntity>, thrown: bool)
    requires i < |ds| && IsNamed(ds[i])
    requires !st.thrown && calls0 == before + st.log && Collected(rs0, cs0, ps0, ds[..i], ctx)
    requires var o := DeclOutcome(ds[i], ctx, st.next);
      thrown == o.thrown && dev.calls == calls0 + o.log && dev.nextHandle == o.next
    requires !thrown ==>
      Added(rs0, cs0, ps0, s.renderables, s.cameras, s.pointLights, ds[i].entityType, NameOf(ds[i]), BoundOf(ds[i], ctx))
    ensures var next := EntityStep(st, ds[i], ctx); thrown == next.thrown && PopulatedAt(s, dev, ds, ctx, next, i + 1, before)
  {
    AppendAssoc(before, st.log, DeclOutcome(ds[i], ctx, st.next).log);
    if !thrown {
      CollectedStep(rs0, cs0, ps0, s.renderables, s.cameras, s.pointLights, ds, i, ctx);
    }
  }

  /** A named declaration: the inner foreach, then the type switch. */
  method LoadNamed(s: Scene, d: EntityMetadata, ghost ctx: EntityContext,
                   fileExists: string -> bool, pipelineShader: Option<Shader>, conv: Converter, dev: Device)
    returns (thrown: bool)
    requires IsNamed(d) && Dict.Valid(d.properties) && WorldTextures(d, ctx) <= ctx.tex.Keys
    requires s.Valid() && Matches(s, ctx, conv, fileExists, pipelineShader) && TexturesAre(ctx.tex)
    modifies s`renderables, s`worlds, s`renderModels, s`cameras, s`updatables, s`pointLights, dev
    ensures var o := DeclOutcome(d, ctx, old(dev.nextHandle));
      thrown == o.thrown && dev.calls == old(dev.calls) + o.log && dev.nextHandle == o.next
    ensures !thrown ==>
      Added(old(s.renderables), old(s.cameras), old(s.pointLights), s.renderables, s.cameras, s.pointLights,
            d.entityType, NameOf(d), BoundOf(d, ctx))
    ensures s.Valid()
    ensures dev.state == old(dev.state) && dev.Env() == old(dev.Env())
  {
    var props;
    props, thrown := ResolveProperties(d.properties, s.textures, s.models, conv, dev);
    if thrown {
      return;
    }
    ghost var mid := dev.calls;
    thrown := Construct(s, d.entityType, d.name.value, props, ctx, fileExists, pipelineShader, conv, dev);
    AppendAssoc(old(dev.calls), Resolved(d, ctx).log, Construction(d.entityType, d.name.value, props, ctx, old(dev.nextHandle)).log);
  }

  /** LoadEntities on a scene whose entity sets are still empty, as the constructor
      calls it: the fold's calls, handles and exception; an exception exactly when some
      named declaration throws; otherwise the collections Collected describes, and two
      handles (map image and chunk mesh) per world. */
  method LoadEntities(s: Scene, ds: seq<EntityMetadata>, ghost ctx: EntityContext,
                      fileExists: string -> bool, pipelineShader: Option<Shader>, conv: Converter, dev: Device)
    returns (thrown: bool)
    requires s.Valid() && Matches(s, ctx, conv, fileExists, pipelineShader) && TexturesAre(ctx.tex) && Covered(ds, ctx)
    requires s.renderables == [] && s.cameras == [] && s.pointLights == []
    modifies s`renderables, s`worlds, s`renderModels, s`cameras, s`updatables, s`pointLights, dev
    ensures var st := EntityFirst(ds, ctx, old(dev.nextHandle), |ds|);
      thrown == st.thrown && dev.calls == old(dev.calls) + st.log && dev.nextHandle == st.next
    ensures thrown <==> exists k :: 0 <= k < |ds| && IsNamed(ds[k]) && Throws(ds[k], ctx.textures, ctx.models, conv, s.basePath, fileExists)
    ensures thrown <==> AnyThrows(ds, ctx, |ds|)
    ensures !thrown ==>
      && Collected(s.renderables, s.cameras, s.pointLights, ds, ctx)
      && dev.nextHandle == old(dev.nextHandle) + 2 * |Declared(ds, {WorldType})|
    ensures s.Valid() && Matches(s, ctx, conv, fileExists, pipelineShader)
    ensures dev.state == old(dev.state) && dev.Env() == old(dev.Env())
  {
    ghost var h := dev.nextHandle;
    thrown := PopulateAll(s, ds, ctx, fileExists, pipelineShader, conv, dev);
    EntityThrows(ds, ctx, h, |ds|);
    AnyThrowsExists(ds, ctx, |ds|);
    assert ds[..|ds|] == ds;
    if !thrown {
      EntityHandles(ds, ctx, h, |ds|);
    }
  }

  /** The outer foreach itself, until an exception. */
  method PopulateAll(s: Scene, ds: seq<EntityMetadata>, ghost ctx: EntityContext,
                     fileExists: string -> bool, pipelineShader: Option<Shader>, conv: Converter, dev: Device)
    returns (thrown: bool)
    requires s.Valid() && Matches(s, ctx, conv, fileExists, pipelineShader) && TexturesAre(ctx.tex) && Covered(ds, ctx)
    requires s.renderables == [] && s.cameras == [] && s.pointLights == []
    modifies s`renderables, s`worlds, s`renderModels, s`cameras, s`updatables, s`pointLights, dev
    ensures Populated(s, dev, ds, ctx, old(dev.nextHandle), |ds|, thrown, old(dev.calls))
    ensures s.Valid()
    ensures dev.state == old(dev.state) && dev.Env() == old(dev.Env())
  {
    ghost var h := dev.nextHandle;
    assert ds[..0] == [];
    assert Walking(s, dev, ds, ctx, h, 0, false, dev.calls, fileExists, pipelineShader, conv);
    var i;
    i, thrown := Walk(s, ds, ctx, fileExists, pipelineShader, conv, dev);
    if thrown {
      EntityStops(ds, ctx, h, i, |ds|);
    }
  }

  /** The loop of the outer foreach, from its start until the end or an exception. */
  method Walk(s: Scene, ds: seq<EntityMetadata>, ghost ctx: EntityContext,
              fileExists: string -> bool, pipelineShader: Option<Shader>, conv: Converter, dev: Device)
    returns (i: nat, thrown: bool)
    requires Walking(s, dev, ds, ctx, dev.nextHandle, 0, false, dev.calls, fileExists, pipelineShader, conv)
    requires TexturesAre(ctx.tex) && Covered(ds, ctx)
    modifies s`renderables, s`worlds, s`renderModels, s`cameras, s`updatables, s`pointLights, dev
    ensures Walking(s, dev, ds, ctx, old(dev.nextHandle), i, thrown, old(dev.calls), fileExists, pipelineShader, conv)
    ensures thrown || i == |ds|
    ensures dev.state == old(dev.state) && dev.Env() == old(dev.Env())
  {
    ghost var h := dev.nextHandle;
    thrown := false;
    i := 0;
    while i < |ds| && !thrown
      invariant Walking(s, dev, ds, ctx, h, i, thrown, old(dev.calls), fileExists, pipelineShader, conv)
      invariant dev.state == old(dev.state) && dev.Env() == old(dev.Env())
    {
      thrown := LoadEntity(s, ds, i, ctx, EntityFirst(ds, ctx, h, i), old(dev.calls), fileExists, pipelineShader, conv, dev);
      WalkingStep(s, dev, ds, ctx, h, i, thrown, old(dev.calls), fileExists, pipelineShader, conv);
      i := i + 1;
    }
  }

  /** Once an exception escapes, later declarations change nothing. */
  lemma {:induction false} EntityStops(ds: seq<EntityMetadata>, ctx: EntityContext, h: Handle, i: nat, n: nat)
    requires i <= n <= |ds| && EntityFirst(ds, ctx, h, i).thrown
    ensures EntityFirst(ds, ctx, h, n) == EntityFirst(ds, ctx, h, i)
    decreases n - i
  {
    if n > i {
      EntityStops(ds, ctx, h, i, n - 1);
    }
  }

  /** Some of the first n declarations is named and throws. */
  predicate AnyThrows(ds: seq<EntityMetadata>, ctx: EntityContext, n: nat)
    requires n <= |ds|
  {
    n > 0 && (AnyThrows(ds, ctx, n - 1)
              || (IsNamed(ds[n - 1]) && Throws(ds[n - 1], ctx.textures, ctx.models, ctx.conv, ctx.basePath, ctx.fileExists)))
  }

  /** An exception escapes the first n declarations exactly when one of them is named
      and throws (SceneRules.Throws). */
  lemma {:induction false} EntityThrows(ds: seq<EntityMetadata>, ctx: EntityContext, h: Handle, n: nat)
    requires n <= |ds|
    ensures EntityFirst(ds, ctx, h, n).thrown <==> AnyThrows(ds, ctx, n)
  {
    if n > 0 {
      EntityThrows(ds, ctx, h, n - 1);
      var st := EntityFirst(ds, ctx, h, n - 1);
      if !st.thrown {
        StepThrows(st, ds[n - 1], ctx);
      }
    }
  }

  /** One declaration past a clean prefix throws exactly when it is named and throws. */
  lemma StepThrows(st: Populating, d: EntityMetadata, ctx: EntityContext)
    requires !st.thrown
    ensures EntityStep(st, d, ctx).thrown <==> IsNamed(d) && Throws(d, ctx.textures, ctx.models, ctx.conv, ctx.basePath, ctx.fileExists)
  {
    if IsNamed(d) {
      DeclThrows(d, ctx, st.next);
    }
  }

  /** AnyThrows as an existential. */
  lemma {:induction false} AnyThrowsExists(ds: seq<EntityMetadata>, ctx: EntityContext, n: nat)
    requires n <= |ds|
    ensures AnyThrows(ds, ctx, n) <==>
      exists k :: 0 <= k < n && IsNamed(ds[k]) && Throws(ds[k], ctx.textures, ctx.models, ctx.conv, ctx.basePath, ctx.fileExists)
  {
    if n > 0 {
      AnyThrowsExists(ds, ctx, n - 1);
      if AnyThrows(ds, ctx, n - 1) {
        var k :| 0 <= k < n - 1 && IsNamed(ds[k]) && Throws(ds[k], ctx.textures, ctx.models, ctx.conv, ctx.basePath, ctx.fileExists);
        assert 0 <= k < n;
      }
    }
  }

  /** A named declaration throws as SceneRules.Throws says. */
  lemma DeclThrows(d: EntityMetadata, ctx: EntityContext, next: Handle)
    requires IsNamed(d)
    ensures DeclOutcome(d, ctx, next).thrown <==> Throws(d, ctx.textures, ctx.models, ctx.conv, ctx.basePath, ctx.fileExists)
  {
    if !Resolved(d, ctx).thrown {
      ConstructionThrows(d.entityType, d.name.value, Resolved(d, ctx).props, ctx, next);
    }
  }

  /** The type switch throws exactly when the binding or (for a world) the map file check does. */
  lemma ConstructionThrows(t: EntityType, name: string, props: Dict.Dict<string, Value>, ctx: EntityContext, next: Handle)
    ensures Construction(t, name, props, ctx, next).thrown <==>
      || BindingOf(t, props, ctx.conv).thrown
      || (t == WorldType && !ctx.fileExists(MapFile(ctx.basePath, AsString(BindingOf(WorldType, props, ctx.conv).bound, "MapPath", None))))
  {
  }

  /** Without an exception, each named world declaration takes two handles and nothing
      else takes any. */
  lemma {:induction false} EntityHandles(ds: seq<EntityMetadata>, ctx: EntityContext, h: Handle, n: nat)
    requires n <= |ds| && !EntityFirst(ds, ctx, h, n).thrown
    ensures EntityFirst(ds, ctx, h, n).next == h + 2 * |Declared(ds[..n], {WorldType})|
  {
    if n > 0 {
      StepHandles(EntityFirst(ds, ctx, h, n - 1), ds[n - 1], ctx);
      EntityHandles(ds, ctx, h, n - 1);
      DeclaredStep(ds, n - 1, {WorldType});
    } else {
      assert ds[..0] == [];
    }
  }

  /** A pass without an exception follows one without, and takes two handles for a
      named world and none otherwise. */
  lemma StepHandles(st: Populating, d: EntityMetadata, ctx: EntityContext)
    requires !EntityStep(st, d, ctx).thrown
    ensures !st.thrown
    ensures EntityStep(st, d, ctx).next == if IsNamed(d) && d.entityType == WorldType then st.next + 2 else st.next
  {
  }
}
