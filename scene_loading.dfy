/** Core/Scene.cs, loading of resources: LoadResources, with its foreach proved against
    a fold over the resource declarations; the rules behind the fold are in SceneRules.
    The entities load in EntityLoading, and the constructor and Load are in
    SceneCreation. */
module SceneLoading {
  import opened Common
  import Dict
  import opened Raylib
  import opened Resources
  import opened Values
  import opened Binding
  import opened Entities
  import opened Interfaces
  import opened SceneRules
  import opened Scenes
  import Configuration
  import RaylibHelpers

  // ---------------------------------------------------------------- what loading depends on

  /** Everything the loading of resources depends on besides the declarations: the
      scene's base path, File.Exists, the device's oracles, the mipmaps and filtering
      settings read by every TextureResource, and the pipeline's default shader
      (RenderingPipeline.Instance?.DefaultShader) given to every ModelResource. */
  datatype LoadContext = LoadContext(
    basePath: string,
    fileExists: string -> bool,
    imageSize: string -> (int, int),
    modelShape: string -> (nat, nat),
    levels: Texture2D -> int,
    defaultShader: Shader,
    mipmaps: bool,
    filter: TextureFilter,
    pipelineShader: Option<Shader>)

  ghost predicate Describes(ctx: LoadContext, basePath: string, fileExists: string -> bool, cfg: Configuration.Config,
                      pipelineShader: Option<Shader>, dev: Device)
    reads cfg
  {
    ctx == LoadContext(basePath, fileExists, dev.imageSize, dev.modelShape, dev.mipmapLevels, dev.defaultShader,
                       cfg.GetBool("graphic:mipmaps"), cfg.GetFilter("graphic:filtering"), pipelineShader)
  }

  /** The calls the TextureResource constructor makes for texture `t`. */
  function TextureResourceCalls(t: Texture2D, ctx: LoadContext): seq<GpuCall> {
    MipmapCalls(t, ctx.mipmaps)
    + [SetTextureFilter(WithMipmaps(t, ctx.mipmaps, ctx.levels), Point),
       SetTextureFilter(WithMipmaps(t, ctx.mipmaps, ctx.levels), ctx.filter)]
  }

  /** The calls the ModelResource constructor makes for model `m`. */
  function ModelResourceCalls(m: Model, ctx: LoadContext): seq<GpuCall> {
    if ctx.pipelineShader.Some? then ShaderCalls(m.MaterialCount(), ctx.pipelineShader.value) else []
  }

  /** The model a ModelResource built from `m` holds. */
  function ResourceModel(m: Model, ctx: LoadContext): Model {
    if ctx.pipelineShader.Some? then WithShader(m, ctx.pipelineShader.value) else m
  }

  // ---------------------------------------------------------------- fallbacks

  const FallbackPath := "Data/Common/Fallback.png"

  /** The fallback texture as LoadTexture returns it, when the next handle is h + 1. */
  function FallbackTexture(ctx: LoadContext, h: Handle): Texture2D {
    Texture2D(h + 1, ctx.imageSize(FallbackPath).0, ctx.imageSize(FallbackPath).1, 1, UncompressedR8G8B8A8)
  }

  /** The fallback model's 0.1 cube mesh. */
  function FallbackMesh(h: Handle): Mesh {
    Mesh(h + 2, 0, false)
  }

  function FallbackModel(ctx: LoadContext, h: Handle): Model {
    Model([FallbackMesh(h)], [Material(ctx.defaultShader, map[])])
  }

  /** The calls of the fallback texture: loaded, then made a TextureResource. */
  function FallbackTextureCalls(ctx: LoadContext, h: Handle): seq<GpuCall> {
    [GpuCall.LoadTexture(FallbackPath, FallbackTexture(ctx, h))] + TextureResourceCalls(FallbackTexture(ctx, h), ctx)
  }

  /** The calls of the fallback model: a 0.1 cube made a model, then a ModelResource,
      whose material 0 gets the fallback texture as its diffuse map. */
  function FallbackModelCalls(ctx: LoadContext, h: Handle): seq<GpuCall> {
    [GpuCall.GenMesh(Cube(0.1, 0.1, 0.1), FallbackMesh(h)), LoadModelFromMesh(FallbackMesh(h))]
    + ModelResourceCalls(FallbackModel(ctx, h), ctx)
    + [GpuCall.SetMaterialTexture(0, DiffuseMap, FallbackTexture(ctx, h))]
  }

  /** Before any declared resource: the fallback texture and the fallback model, whose
      material 0 has the fallback texture as its diffuse map. The map is the texture as
      LoadTexture returned it: the resource's own copy may have had mipmaps generated
      since, so the two agree on the handle but not necessarily on the mip levels. */
  method LoadFallbacks(s: Scene, ghost ctx: LoadContext, cfg: Configuration.Config, pipelineShader: Option<Shader>, dev: Device)
    requires Describes(ctx, s.basePath, ctx.fileExists, cfg, pipelineShader, dev)
    requires s.textures == [] && s.models == []
    modifies s`textures, s`models, dev
    ensures |s.textures| == 1 && s.textures[0].0 == "fallback" && fresh(s.textures[0].1)
    ensures |s.models| == 1 && s.models[0].0 == "fallback" && fresh(s.models[0].1)
    ensures var t := FallbackTexture(ctx, old(dev.nextHandle));
      && s.textures[0].1.name == "fallback" && s.textures[0].1.texture == WithMipmaps(t, ctx.mipmaps, ctx.levels)
      && s.models[0].1.name == "fallback" && s.models[0].1.model.meshes == [FallbackMesh(old(dev.nextHandle))]
      && s.models[0].1.model.MaterialCount() == 1
      && s.models[0].1.model.materials[0].maps == map[DiffuseMap := t]
      && t.id == s.textures[0].1.texture.id
    ensures dev.calls == old(dev.calls) + FallbackTextureCalls(ctx, old(dev.nextHandle)) + FallbackModelCalls(ctx, old(dev.nextHandle))
    ensures dev.nextHandle == old(dev.nextHandle) + 2 && dev.Env() == old(dev.Env())
  {
    var fallbackTexture := LoadFallbackTexture(s, ctx, cfg, dev);
    LoadFallbackModel(s, fallbackTexture, ctx, old(dev.nextHandle), pipelineShader, dev);
  }

  method LoadFallbackTexture(s: Scene, ghost ctx: LoadContext, cfg: Configuration.Config, dev: Device) returns (t: Texture2D)
    requires Describes(ctx, s.basePath, ctx.fileExists, cfg, ctx.pipelineShader, dev)
    modifies s`textures, dev
    ensures t == FallbackTexture(ctx, old(dev.nextHandle))
    ensures |s.textures| == 1 && s.textures[0].0 == "fallback" && fresh(s.textures[0].1)
    ensures s.textures[0].1.name == "fallback" && s.textures[0].1.texture == WithMipmaps(t, ctx.mipmaps, ctx.levels)
    ensures dev.calls == old(dev.calls) + FallbackTextureCalls(ctx, old(dev.nextHandle))
    ensures dev.nextHandle == old(dev.nextHandle) + 1 && dev.Env() == old(dev.Env())
  {
    t := dev.LoadTexture(FallbackPath);
    var fallbackTextureResource := new TextureResource("fallback", t, cfg, dev);
    s.textures := [("fallback", fallbackTextureResource)];
  }

  method LoadFallbackModel(s: Scene, t: Texture2D, ghost ctx: LoadContext, ghost h: Handle, pipelineShader: Option<Shader>, dev: Device)
    requires ctx.defaultShader == dev.defaultShader && ctx.pipelineShader == pipelineShader
    requires dev.nextHandle == h + 1 && t == FallbackTexture(ctx, h)
    modifies s`models, dev
    ensures |s.models| == 1 && s.models[0].0 == "fallback" && fresh(s.models[0].1)
    ensures s.models[0].1.name == "fallback" && s.models[0].1.model.meshes == [FallbackMesh(h)]
    ensures s.models[0].1.model.MaterialCount() == 1 && s.models[0].1.model.materials[0].maps == map[DiffuseMap := t]
    ensures dev.calls == old(dev.calls) + FallbackModelCalls(ctx, h)
    ensures dev.nextHandle == old(dev.nextHandle) + 1 && dev.Env() == old(dev.Env())
  {
    var fallbackMesh := dev.GenMesh(Cube(0.1, 0.1, 0.1));
    var fallbackModel := dev.ModelFromMesh(fallbackMesh);
    var fallbackModelResource := new ModelResource("fallback", fallbackModel, pipelineShader, dev);
    fallbackModelResource.SetMaterialTexture(0, DiffuseMap, t, dev);
    s.models := [("fallback", fallbackModelResource)];
  }

  // ---------------------------------------------------------------- declared resources

  function Outcome(r: ResourceMetadata, ctx: LoadContext): Outcome {
    OutcomeOf(r, ctx.basePath, ctx.fileExists, ctx.modelShape)
  }

  /** The texture LoadTexture returns for a texture declaration when the next handle is h + 1. */
  function DeclaredTexture(r: ResourceMetadata, ctx: LoadContext, h: Handle): Texture2D {
    var path := ResourcePath(ctx.basePath, r);
    Texture2D(h + 1, ctx.imageSize(path).0, ctx.imageSize(path).1, 1, UncompressedR8G8B8A8)
  }

  /** The model a model declaration yields when the next handle is h + 1: generated by
      its algorithm, or read from its file. */
  function DeclaredModel(r: ResourceMetadata, ctx: LoadContext, h: Handle): Model {
    if r.generated then
      if RaylibHelpers.IsKnownAlgorithm(r.algorithmType) then Model([Mesh(h + 1, 0, true)], [Material(ctx.defaultShader, map[])])
      else EmptyModel
    else FileModel(h + 1, ctx.modelShape(ResourcePath(ctx.basePath, r)), ctx.defaultShader)
  }

  /** The calls that produce that model. */
  function ModelLoadCalls(r: ResourceMetadata, ctx: LoadContext, h: Handle): seq<GpuCall> {
    if r.generated then
      if RaylibHelpers.IsKnownAlgorithm(r.algorithmType) then RaylibHelpers.BoxCalls(Mesh(h + 1, 0, false))
      else [RaylibHelpers.UnknownAlgorithmError(r.algorithmType)]
    else [GpuCall.LoadModel(ResourcePath(ctx.basePath, r), DeclaredModel(r, ctx, h))]
  }

  /** The message logged for a skipped declaration named `name`. */
  function ResourceMessage(name: string, reason: string): string {
    "[Scene]: Couldn't load resource \"" + name + "\". " + reason
  }

  function ResourceError(r: ResourceMetadata, reason: string): GpuCall
    requires r.name.Some?
  {
    TraceLog(LogError, ResourceMessage(r.name.value, reason))
  }

  /** The calls one declaration makes, when the next handle is h + 1: an error for each
      skipped declaration (none for a generated texture), the loading and the resource
      constructor's calls for a loaded one. */
  function ResourceCalls(r: ResourceMetadata, ctx: LoadContext, h: Handle): seq<GpuCall> {
    match Outcome(r, ctx)
    case BadName => [TraceLog(LogError, "[Scene]: Couldn't load resource. Bad resource name!")]
    case FileNotFound => [ResourceError(r, "File not found!")]
    case NoAlgorithm => [ResourceError(r, "Generation algorithm type is undefined!")]
    case GeneratedTexture => []
    case TextureLoaded =>
      [GpuCall.LoadTexture(ResourcePath(ctx.basePath, r), DeclaredTexture(r, ctx, h))]
      + TextureResourceCalls(DeclaredTexture(r, ctx, h), ctx)
    case CorruptedModel => ModelLoadCalls(r, ctx, h) + [ResourceError(r, "Model is corrupted!")]
    case ModelLoaded => ModelLoadCalls(r, ctx, h) + ModelResourceCalls(DeclaredModel(r, ctx, h), ctx)
    case UnknownType => [ResourceError(r, "Unknown resource type!")]
  }

  /** The handles one declaration takes: a loaded texture's, a model file's, or the "box"
      mesh's. */
  function HandlesUsed(r: ResourceMetadata, ctx: LoadContext): nat {
    match Outcome(r, ctx)
    case TextureLoaded => 1
    case CorruptedModel => if r.generated && !RaylibHelpers.IsKnownAlgorithm(r.algorithmType) then 0 else 1
    case ModelLoaded => 1
    case _ => 0
  }

  /** Where LoadResources stands: the keys of both tables, the calls made, the next
      handle, and whether Dictionary.Add threw. */
  datatype Loading = Loading(textures: seq<string>, models: seq<string>, log: seq<GpuCall>, next: Handle, thrown: bool)

  /** One declaration: its calls, then Dictionary.Add into its table, which throws when
      the name is already a key. */
  function LoadStep(st: Loading, r: ResourceMetadata, ctx: LoadContext): (r': Loading)
    ensures r'.log == st.log + ResourceCalls(r, ctx, st.next) && r'.next == st.next + HandlesUsed(r, ctx)
  {
    var done := st.(log := st.log + ResourceCalls(r, ctx, st.next), next := st.next + HandlesUsed(r, ctx));
    match Outcome(r, ctx)
    case TextureLoaded =>
      if r.name.value in st.textures then done.(thrown := true) else done.(textures := st.textures + [r.name.value])
    case ModelLoaded =>
      if r.name.value in st.models then done.(thrown := true) else done.(models := st.models + [r.name.value])
    case _ => done
  }

  /** The foreach over the first n declarations, after the fallbacks; it stops at the
      first exception. */
  function LoadFirst(rs: seq<ResourceMetadata>, ctx: LoadContext, h: Handle, n: nat): Loading
    requires n <= |rs|
  {
    if n == 0 then Loading(["fallback"], ["fallback"], [], h, false)
    else
      var st := LoadFirst(rs, ctx, h, n - 1);
      if st.thrown then st else LoadStep(st, rs[n - 1], ctx)
  }

  /** The fold is the rule: loading the first n declarations throws exactly when the
      names kept from them clash with each other or with "fallback"; otherwise the
      tables' keys are "fallback" and the kept names, in declaration order. The keys
      never repeat. */
  lemma {:induction false} LoadFirstFollowsRules(rs: seq<ResourceMetadata>, ctx: LoadContext, h: Handle, n: nat)
    requires n <= |rs|
    ensures var st := LoadFirst(rs, ctx, h, n);
      && (st.thrown <==> !LoadsWithoutClash(rs[..n], ctx.basePath, ctx.fileExists, ctx.modelShape))
      && (!st.thrown ==>
            && st.textures == ["fallback"] + Kept(rs[..n], TextureLoaded, ctx.basePath, ctx.fileExists, ctx.modelShape)
            && st.models == ["fallback"] + Kept(rs[..n], ModelLoaded, ctx.basePath, ctx.fileExists, ctx.modelShape))
      && NoDup(st.textures) && NoDup(st.models)
  {
    if n == 0 {
      assert rs[..0] == [];
    } else {
      LoadFirstFollowsRules(rs, ctx, h, n - 1);
      if LoadFirst(rs, ctx, h, n - 1).thrown {
        ClashPersists(rs, ctx, n);
      } else {
        StepFollowsRules(rs, ctx, LoadFirst(rs, ctx, h, n - 1), n);
      }
    }
  }

  /** A clash among the first n - 1 declarations is a clash among the first n. */
  lemma ClashPersists(rs: seq<ResourceMetadata>, ctx: LoadContext, n: nat)
    requires 0 < n <= |rs|
    requires !LoadsWithoutClash(rs[..n - 1], ctx.basePath, ctx.fileExists, ctx.modelShape)
    ensures !LoadsWithoutClash(rs[..n], ctx.basePath, ctx.fileExists, ctx.modelShape)
  {
    var kt, km := Kept(rs[..n], TextureLoaded, ctx.basePath, ctx.fileExists, ctx.modelShape),
                  Kept(rs[..n], ModelLoaded, ctx.basePath, ctx.fileExists, ctx.modelShape);
    var pt, pm := Kept(rs[..n - 1], TextureLoaded, ctx.basePath, ctx.fileExists, ctx.modelShape),
                  Kept(rs[..n - 1], ModelLoaded, ctx.basePath, ctx.fileExists, ctx.modelShape);
    KeptPrefix(rs[..n], n - 1, TextureLoaded, ctx.basePath, ctx.fileExists, ctx.modelShape);
    KeptPrefix(rs[..n], n - 1, ModelLoaded, ctx.basePath, ctx.fileExists, ctx.modelShape);
    assert rs[..n][..n - 1] == rs[..n - 1];
    if NoDup(["fallback"] + kt) {
      NoDupPrefix(["fallback"] + pt, ["fallback"] + kt);
    }
    if NoDup(["fallback"] + km) {
      NoDupPrefix(["fallback"] + pm, ["fallback"] + km);
    }
  }

  /** One step from a state that follows the rules for the first n - 1 declarations
      follows them for the first n. */
  lemma StepFollowsRules(rs: seq<ResourceMetadata>, ctx: LoadContext, st: Loading, n: nat)
    requires 0 < n <= |rs| && !st.thrown
    requires st.textures == ["fallback"] + Kept(rs[..n - 1], TextureLoaded, ctx.basePath, ctx.fileExists, ctx.modelShape)
    requires st.models == ["fallback"] + Kept(rs[..n - 1], ModelLoaded, ctx.basePath, ctx.fileExists, ctx.modelShape)
    requires NoDup(st.textures) && NoDup(st.models)
    ensures var st' := LoadStep(st, rs[n - 1], ctx);
      && (st'.thrown <==> !LoadsWithoutClash(rs[..n], ctx.basePath, ctx.fileExists, ctx.modelShape))
      && (!st'.thrown ==>
            && st'.textures == ["fallback"] + Kept(rs[..n], TextureLoaded, ctx.basePath, ctx.fileExists, ctx.modelShape)
            && st'.models == ["fallback"] + Kept(rs[..n], ModelLoaded, ctx.basePath, ctx.fileExists, ctx.modelShape))
      && NoDup(st'.textures) && NoDup(st'.models)
  {
    var kt, km := Kept(rs[..n], TextureLoaded, ctx.basePath, ctx.fileExists, ctx.modelShape),
                  Kept(rs[..n], ModelLoaded, ctx.basePath, ctx.fileExists, ctx.modelShape);
    var pt, pm := Kept(rs[..n - 1], TextureLoaded, ctx.basePath, ctx.fileExists, ctx.modelShape),
                  Kept(rs[..n - 1], ModelLoaded, ctx.basePath, ctx.fileExists, ctx.modelShape);
    KeptStep(rs, n - 1, TextureLoaded, ctx.basePath, ctx.fileExists, ctx.modelShape);
    KeptStep(rs, n - 1, ModelLoaded, ctx.basePath, ctx.fileExists, ctx.modelShape);
    var r := rs[n - 1];
    match Outcome(r, ctx)
    case TextureLoaded =>
      NoDupSnoc(st.textures, r.name.value);
      assert ["fallback"] + kt == st.textures + [r.name.value];
      assert km == pm;
    case ModelLoaded =>
      NoDupSnoc(st.models, r.name.value);
      assert ["fallback"] + km == st.models + [r.name.value];
      assert kt == pt;
    case _ =>
      assert kt == pt && km == pm;
  }

  // ---------------------------------------------------------------- one declaration

  /** An entry added for texture declaration r when the next handle was h + 1. */
  ghost predicate NewTexture(e: (string, TextureResource), r: ResourceMetadata, ctx: LoadContext, h: Handle)
    reads e.1
  {
    && r.name.Some? && e.0 == r.name.value && e.1.name == e.0
    && e.1.texture == WithMipmaps(DeclaredTexture(r, ctx, h), ctx.mipmaps, ctx.levels)
  }

  /** An entry added for model declaration r when the next handle was h + 1. */
  ghost predicate NewModel(e: (string, ModelResource), r: ResourceMetadata, ctx: LoadContext, h: Handle)
    reads e.1
  {
    && r.name.Some? && e.0 == r.name.value && e.1.name == e.0
    && e.1.model == ResourceModel(DeclaredModel(r, ctx, h), ctx)
  }

  /** Dictionary.Add throws for declaration r: a loaded texture or model whose name is
      already a key of its table. */
  predicate Clashes(r: ResourceMetadata, ctx: LoadContext, textures: seq<string>, models: seq<string>) {
    || (Outcome(r, ctx) == TextureLoaded && r.name.value in textures)
    || (Outcome(r, ctx) == ModelLoaded && r.name.value in models)
  }

  /** What LoadStep does, case by case. */
  lemma StepCases(st: Loading, r: ResourceMetadata, ctx: LoadContext)
    ensures var st' := LoadStep(st, r, ctx);
      && st'.thrown == (st.thrown || Clashes(r, ctx, st.textures, st.models))
      && (!Clashes(r, ctx, st.textures, st.models) ==>
            && st'.textures == st.textures + (if Outcome(r, ctx) == TextureLoaded then [r.name.value] else [])
            && st'.models == st.models + (if Outcome(r, ctx) == ModelLoaded then [r.name.value] else []))
  {
  }

  /** The scene and the device after the first i declarations, against the fold: the
      exception flag, the keys (unless it threw), the calls after `before` and the
      next handle are the fold's; the tables are dictionaries and hold no texture
      resource twice. */
  ghost predicate Tracks(s: Scene, dev: Device, rs: seq<ResourceMetadata>, ctx: LoadContext, h: Handle, i: nat,
                         thrown: bool, before: seq<GpuCall>)
    requires i <= |rs|
    reads s, dev
  {
    var st := LoadFirst(rs, ctx, h, i);
    && thrown == st.thrown
    && (!thrown ==> Dict.Keys(s.textures) == st.textures && Dict.Keys(s.models) == st.models)
    && dev.calls == before + st.log && dev.nextHandle == st.next
    && Dict.Valid(s.textures) && Dict.Valid(s.models)
    && (forall a, b :: 0 <= a < b < |s.textures| ==> s.textures[a].1 != s.textures[b].1)
  }

  /** What the tables hold after the first n declarations, when nothing threw: after
      "fallback", the k-th entry of a table is the resource made from the k-th kept
      declaration, with the handle the fold had reached when it came to that
      declaration. */
  ghost predicate Sourced(s: Scene, rs: seq<ResourceMetadata>, ctx: LoadContext, h: Handle, n: nat)
    requires n <= |rs|
    reads s, TextureObjects(s.textures), ModelObjects(s.models)
  {
    TexturesSourced(s.textures, rs, ctx, h, n) && ModelsSourced(s.models, rs, ctx, h, n)
  }

  /** The resources a table holds. */
  function TextureObjects(textures: Dict.Dict<string, TextureResource>): set<TextureResource> {
    set k | 0 <= k < |textures| :: textures[k].1
  }

  function ModelObjects(models: Dict.Dict<string, ModelResource>): set<ModelResource> {
    set k | 0 <= k < |models| :: models[k].1
  }

  /** The texture half of Sourced. */
  ghost predicate TexturesSourced(textures: Dict.Dict<string, TextureResource>, rs: seq<ResourceMetadata>, ctx: LoadContext, h: Handle, n: nat)
    requires n <= |rs|
    reads TextureObjects(textures)
  {
    var ts := KeptAt(rs[..n], TextureLoaded, ctx.basePath, ctx.fileExists, ctx.modelShape);
    && |textures| == |ts| + 1
    && forall k :: 0 <= k < |ts| ==> NewTexture(textures[k + 1], rs[ts[k]], ctx, LoadFirst(rs, ctx, h, ts[k]).next)
  }

  /** A declaration that adds its texture, or none, after the first i keeps the first i
      entries and makes the table hold what the first i + 1 declarations give. */
  lemma TexturesStep(t0: Dict.Dict<string, TextureResource>, t1: Dict.Dict<string, TextureResource>,
                     rs: seq<ResourceMetadata>, ctx: LoadContext, h: Handle, i: nat)
    requires i < |rs| && TexturesSourced(t0, rs, ctx, h, i) && t0 <= t1
    requires |t1| == |t0| + (if Outcome(rs[i], ctx) == TextureLoaded then 1 else 0)
    requires forall k :: |t0| <= k < |t1| ==> NewTexture(t1[k], rs[i], ctx, LoadFirst(rs, ctx, h, i).next)
    ensures TexturesSourced(t1, rs, ctx, h, i + 1)
  {
    KeptAtStep(rs, i, TextureLoaded, ctx.basePath, ctx.fileExists, ctx.modelShape);
    var ts := KeptAt(rs[..i], TextureLoaded, ctx.basePath, ctx.fileExists, ctx.modelShape);
    assert forall k :: 0 < k <= |ts| ==> t1[k] == t0[k];
  }

  /** The model half of TexturesStep. */
  lemma ModelsStep(m0: Dict.Dict<string, ModelResource>, m1: Dict.Dict<string, ModelResource>,
                   rs: seq<ResourceMetadata>, ctx: LoadContext, h: Handle, i: nat)
    requires i < |rs| && ModelsSourced(m0, rs, ctx, h, i) && m0 <= m1
    requires |m1| == |m0| + (if Outcome(rs[i], ctx) == ModelLoaded then 1 else 0)
    requires forall k :: |m0| <= k < |m1| ==> NewModel(m1[k], rs[i], ctx, LoadFirst(rs, ctx, h, i).next)
    ensures ModelsSourced(m1, rs, ctx, h, i + 1)
  {
    KeptAtStep(rs, i, ModelLoaded, ctx.basePath, ctx.fileExists, ctx.modelShape);
    var ms := KeptAt(rs[..i], ModelLoaded, ctx.basePath, ctx.fileExists, ctx.modelShape);
    assert forall k :: 0 < k <= |ms| ==> m1[k] == m0[k];
  }

  /** The model half of Sourced. */
  ghost predicate ModelsSourced(models: Dict.Dict<string, ModelResource>, rs: seq<ResourceMetadata>, ctx: LoadContext, h: Handle, n: nat)
    requires n <= |rs|
    reads ModelObjects(models)
  {
    var ms := KeptAt(rs[..n], ModelLoaded, ctx.basePath, ctx.fileExists, ctx.modelShape);
    && |models| == |ms| + 1
    && forall k :: 0 <= k < |ms| ==> NewModel(models[k + 1], rs[ms[k]], ctx, LoadFirst(rs, ctx, h, ms[k]).next)
  }

  /** Iteration i of the foreach of LoadResources, after i declarations that have not
      thrown: it takes the scene and the device from the fold's state after i
      declarations to its state after i + 1. The tables only grow. */
  method LoadResource(s: Scene, rs: seq<ResourceMetadata>, i: nat, ghost ctx: LoadContext, ghost h: Handle, ghost before: seq<GpuCall>,
                      fileExists: string -> bool, cfg: Configuration.Config, pipelineShader: Option<Shader>, dev: Device)
    returns (thrown: bool)
    requires Describes(ctx, s.basePath, fileExists, cfg, pipelineShader, dev)
    requires i < |rs| && Tracks(s, dev, rs, ctx, h, i, false, before)
    modifies s`textures, s`models, dev
    ensures Tracks(s, dev, rs, ctx, h, i + 1, thrown, before)
    ensures !thrown ==>
      && |s.textures| == |old(s.textures)| + (if Outcome(rs[i], ctx) == TextureLoaded then 1 else 0)
      && |s.models| == |old(s.models)| + (if Outcome(rs[i], ctx) == ModelLoaded then 1 else 0)
    ensures forall k :: |old(s.textures)| <= k < |s.textures| ==>
      fresh(s.textures[k].1) && NewTexture(s.textures[k], rs[i], ctx, LoadFirst(rs, ctx, h, i).next)
    ensures forall k :: |old(s.models)| <= k < |s.models| ==>
      fresh(s.models[k].1) && NewModel(s.models[k], rs[i], ctx, LoadFirst(rs, ctx, h, i).next)
    ensures old(s.textures) <= s.textures && old(s.models) <= s.models
    ensures dev.Env() == old(dev.Env())
  {
    ghost var st := LoadFirst(rs, ctx, h, i);
    NextStep(rs, ctx, h, i);
    thrown := LoadChecked(s, rs[i], ctx, fileExists, cfg, pipelineShader, dev);
    StepCases(st, rs[i], ctx);
    AppendAssoc(before, st.log, ResourceCalls(rs[i], ctx, st.next));
    if !thrown && Outcome(rs[i], ctx) == TextureLoaded {
      Dict.KeysAppend(old(s.textures), s.textures);
    }
    if !thrown && Outcome(rs[i], ctx) == ModelLoaded {
      Dict.KeysAppend(old(s.models), s.models);
    }
  }

  /** LoadResource, and what the tables then hold: the entries already there keep their
      resources, and a kept declaration adds the one made from it. */
  method LoadSourced(s: Scene, rs: seq<ResourceMetadata>, i: nat, ghost ctx: LoadContext, ghost h: Handle, ghost before: seq<GpuCall>,
                     fileExists: string -> bool, cfg: Configuration.Config, pipelineShader: Option<Shader>, dev: Device)
    returns (thrown: bool)
    requires Describes(ctx, s.basePath, fileExists, cfg, pipelineShader, dev)
    requires i < |rs| && Tracks(s, dev, rs, ctx, h, i, false, before) && Sourced(s, rs, ctx, h, i)
    modifies s`textures, s`models, dev
    ensures Tracks(s, dev, rs, ctx, h, i + 1, thrown, before)
    ensures !thrown ==> Sourced(s, rs, ctx, h, i + 1)
    ensures old(s.textures) <= s.textures && old(s.models) <= s.models
    ensures dev.Env() == old(dev.Env())
  {
    ghost var t0, m0 := s.textures, s.models;
    assert TexturesSourced(t0, rs, ctx, h, i) && ModelsSourced(m0, rs, ctx, h, i);
    thrown := LoadResource(s, rs, i, ctx, h, before, fileExists, cfg, pipelineShader, dev);
    if !thrown {
      assert unchanged(TextureObjects(t0)) && unchanged(ModelObjects(m0));
      TexturesStep(t0, s.textures, rs, ctx, h, i);
      ModelsStep(m0, s.models, rs, ctx, h, i);
    }
  }

  /** The body of the foreach: the checks in their order, then the switch on the type. */
  method LoadChecked(s: Scene, r: ResourceMetadata, ghost ctx: LoadContext, fileExists: string -> bool,
                     cfg: Configuration.Config, pipelineShader: Option<Shader>, dev: Device) returns (thrown: bool)
    requires Describes(ctx, s.basePath, fileExists, cfg, pipelineShader, dev)
    modifies s`textures, s`models, dev
    ensures thrown <==> Clashes(r, ctx, Dict.Keys(old(s.textures)), Dict.Keys(old(s.models)))
    ensures dev.calls == old(dev.calls) + ResourceCalls(r, ctx, old(dev.nextHandle))
    ensures dev.nextHandle == old(dev.nextHandle) + HandlesUsed(r, ctx) && dev.Env() == old(dev.Env())
    ensures Outcome(r, ctx) == TextureLoaded && !thrown ==> Appended(old(s.textures), s.textures)
    ensures !(Outcome(r, ctx) == TextureLoaded && !thrown) ==> s.textures == old(s.textures)
    ensures Outcome(r, ctx) == ModelLoaded && !thrown ==> Appended(old(s.models), s.models)
    ensures !(Outcome(r, ctx) == ModelLoaded && !thrown) ==> s.models == old(s.models)
    ensures forall k :: |old(s.textures)| <= k < |s.textures| ==>
      fresh(s.textures[k].1) && NewTexture(s.textures[k], r, ctx, old(dev.nextHandle))
    ensures forall k :: |old(s.models)| <= k < |s.models| ==>
      fresh(s.models[k].1) && NewModel(s.models[k], r, ctx, old(dev.nextHandle))
  {
    if IsNullOrWhiteSpace(r.name) {
      dev.Log(LogError, "[Scene]: Couldn't load resource. Bad resource name!");
      return false;
    }
    thrown := LoadNamed(s, r, ctx, fileExists, cfg, pipelineShader, dev);
  }

  /** A declaration with a name: the file and algorithm checks, then the switch. */
  method LoadNamed(s: Scene, r: ResourceMetadata, ghost ctx: LoadContext, fileExists: string -> bool,
                   cfg: Configuration.Config, pipelineShader: Option<Shader>, dev: Device) returns (thrown: bool)
    requires Describes(ctx, s.basePath, fileExists, cfg, pipelineShader, dev) && !IsNullOrWhiteSpace(r.name)
    modifies s`textures, s`models, dev
    ensures thrown <==> Clashes(r, ctx, Dict.Keys(old(s.textures)), Dict.Keys(old(s.models)))
    ensures dev.calls == old(dev.calls) + ResourceCalls(r, ctx, old(dev.nextHandle))
    ensures dev.nextHandle == old(dev.nextHandle) + HandlesUsed(r, ctx) && dev.Env() == old(dev.Env())
    ensures Outcome(r, ctx) == TextureLoaded && !thrown ==> Appended(old(s.textures), s.textures)
    ensures !(Outcome(r, ctx) == TextureLoaded && !thrown) ==> s.textures == old(s.textures)
    ensures Outcome(r, ctx) == ModelLoaded && !thrown ==> Appended(old(s.models), s.models)
    ensures !(Outcome(r, ctx) == ModelLoaded && !thrown) ==> s.models == old(s.models)
    ensures forall k :: |old(s.textures)| <= k < |s.textures| ==>
      fresh(s.textures[k].1) && NewTexture(s.textures[k], r, ctx, old(dev.nextHandle))
    ensures forall k :: |old(s.models)| <= k < |s.models| ==>
      fresh(s.models[k].1) && NewModel(s.models[k], r, ctx, old(dev.nextHandle))
  {
    var filePath := ResourcePath(s.basePath, r);
    if !r.generated && (IsNullOrWhiteSpace(Some(filePath)) || !fileExists(filePath)) {
      assert Outcome(r, ctx) == FileNotFound;
      dev.Log(LogError, ResourceMessage(r.name.value, "File not found!"));
      return false;
    }
    if r.generated && IsNullOrWhiteSpace(r.algorithmType) {
      assert Outcome(r, ctx) == NoAlgorithm;
      dev.Log(LogError, ResourceMessage(r.name.value, "Generation algorithm type is undefined!"));
      return false;
    }
    thrown := LoadByType(s, r, filePath, ctx, cfg, pipelineShader, dev);
  }

  /** A declaration that passed the checks: the switch on its type. */
  method LoadByType(s: Scene, r: ResourceMetadata, filePath: string, ghost ctx: LoadContext,
                    cfg: Configuration.Config, pipelineShader: Option<Shader>, dev: Device) returns (thrown: bool)
    requires Describes(ctx, s.basePath, ctx.fileExists, cfg, pipelineShader, dev) && filePath == ResourcePath(ctx.basePath, r)
    requires Outcome(r, ctx) !in {BadName, FileNotFound, NoAlgorithm}
    modifies s`textures, s`models, dev
    ensures thrown <==> Clashes(r, ctx, Dict.Keys(old(s.textures)), Dict.Keys(old(s.models)))
    ensures dev.calls == old(dev.calls) + ResourceCalls(r, ctx, old(dev.nextHandle))
    ensures dev.nextHandle == old(dev.nextHandle) + HandlesUsed(r, ctx) && dev.Env() == old(dev.Env())
    ensures Outcome(r, ctx) == TextureLoaded && !thrown ==> Appended(old(s.textures), s.textures)
    ensures !(Outcome(r, ctx) == TextureLoaded && !thrown) ==> s.textures == old(s.textures)
    ensures Outcome(r, ctx) == ModelLoaded && !thrown ==> Appended(old(s.models), s.models)
    ensures !(Outcome(r, ctx) == ModelLoaded && !thrown) ==> s.models == old(s.models)
    ensures forall k :: |old(s.textures)| <= k < |s.textures| ==>
      fresh(s.textures[k].1) && NewTexture(s.textures[k], r, ctx, old(dev.nextHandle))
    ensures forall k :: |old(s.models)| <= k < |s.models| ==>
      fresh(s.models[k].1) && NewModel(s.models[k], r, ctx, old(dev.nextHandle))
  {
    match r.resourceType
    case TextureType =>
      thrown := LoadTextureDeclaration(s, r, filePath, ctx, cfg, dev);
    case ModelType =>
      thrown := LoadModelDeclaration(s, r, filePath, ctx, pipelineShader, dev);
    case NoResource =>
      assert Outcome(r, ctx) == UnknownType;
      dev.Log(LogError, ResourceMessage(r.name.value, "Unknown resource type!"));
      thrown := false;
  }

  /** `case ResourceType.Texture`: a generated texture is skipped silently. */
  method LoadTextureDeclaration(s: Scene, r: ResourceMetadata, filePath: string, ghost ctx: LoadContext,
                                cfg: Configuration.Config, dev: Device) returns (thrown: bool)
    requires Describes(ctx, s.basePath, ctx.fileExists, cfg, ctx.pipelineShader, dev) && filePath == ResourcePath(ctx.basePath, r)
    requires Outcome(r, ctx) in {GeneratedTexture, TextureLoaded}
    modifies s`textures, s`models, dev
    ensures thrown <==> Clashes(r, ctx, Dict.Keys(old(s.textures)), Dict.Keys(old(s.models)))
    ensures dev.calls == old(dev.calls) + ResourceCalls(r, ctx, old(dev.nextHandle))
    ensures dev.nextHandle == old(dev.nextHandle) + HandlesUsed(r, ctx) && dev.Env() == old(dev.Env())
    ensures Outcome(r, ctx) == TextureLoaded && !thrown ==> Appended(old(s.textures), s.textures)
    ensures !(Outcome(r, ctx) == TextureLoaded && !thrown) ==> s.textures == old(s.textures)
    ensures Outcome(r, ctx) == ModelLoaded && !thrown ==> Appended(old(s.models), s.models)
    ensures !(Outcome(r, ctx) == ModelLoaded && !thrown) ==> s.models == old(s.models)
    ensures forall k :: |old(s.textures)| <= k < |s.textures| ==>
      fresh(s.textures[k].1) && NewTexture(s.textures[k], r, ctx, old(dev.nextHandle))
    ensures forall k :: |old(s.models)| <= k < |s.models| ==>
      fresh(s.models[k].1) && NewModel(s.models[k], r, ctx, old(dev.nextHandle))
  {
    if r.generated {
      return false;
    }
    thrown := LoadTextureResource(s, r, filePath, ctx, cfg, dev);
  }

  /** `case ResourceType.Model`. */
  method LoadModelDeclaration(s: Scene, r: ResourceMetadata, filePath: string, ghost ctx: LoadContext,
                              pipelineShader: Option<Shader>, dev: Device) returns (thrown: bool)
    requires ctx.defaultShader == dev.defaultShader && ctx.modelShape == dev.modelShape && ctx.pipelineShader == pipelineShader
    requires filePath == ResourcePath(ctx.basePath, r)
    requires Outcome(r, ctx) in {CorruptedModel, ModelLoaded}
    modifies s`textures, s`models, dev
    ensures thrown <==> Clashes(r, ctx, Dict.Keys(old(s.textures)), Dict.Keys(old(s.models)))
    ensures dev.calls == old(dev.calls) + ResourceCalls(r, ctx, old(dev.nextHandle))
    ensures dev.nextHandle == old(dev.nextHandle) + HandlesUsed(r, ctx) && dev.Env() == old(dev.Env())
    ensures Outcome(r, ctx) == TextureLoaded && !thrown ==> Appended(old(s.textures), s.textures)
    ensures !(Outcome(r, ctx) == TextureLoaded && !thrown) ==> s.textures == old(s.textures)
    ensures Outcome(r, ctx) == ModelLoaded && !thrown ==> Appended(old(s.models), s.models)
    ensures !(Outcome(r, ctx) == ModelLoaded && !thrown) ==> s.models == old(s.models)
    ensures forall k :: |old(s.textures)| <= k < |s.textures| ==>
      fresh(s.textures[k].1) && NewTexture(s.textures[k], r, ctx, old(dev.nextHandle))
    ensures forall k :: |old(s.models)| <= k < |s.models| ==>
      fresh(s.models[k].1) && NewModel(s.models[k], r, ctx, old(dev.nextHandle))
  {
    ModelOutcome(r, ctx, dev.nextHandle, Dict.Keys(s.textures), Dict.Keys(s.models));
    thrown := LoadModelResource(s, r, filePath, ctx, pipelineShader, dev);
  }

  /** A model declaration that passed the checks is corrupted exactly when its model has
      no mesh; what it calls and the handles it takes follow from that. */
  lemma ModelOutcome(r: ResourceMetadata, ctx: LoadContext, h: Handle, textures: seq<string>, models: seq<string>)
    requires Outcome(r, ctx) in {CorruptedModel, ModelLoaded}
    ensures var corrupted := MeshCount(r, ctx.basePath, ctx.modelShape) == 0;
      && (Outcome(r, ctx) == CorruptedModel <==> corrupted)
      && (Clashes(r, ctx, textures, models) <==> !corrupted && r.name.value in models)
      && HandlesUsed(r, ctx) == (if r.generated && !RaylibHelpers.IsKnownAlgorithm(r.algorithmType) then 0 else 1)
      && ResourceCalls(r, ctx, h) == ModelLoadCalls(r, ctx, h)
           + (if corrupted then [ResourceError(r, "Model is corrupted!")] else ModelResourceCalls(DeclaredModel(r, ctx, h), ctx))
  {
  }

  /** `after` is `before` and one more entry. */
  predicate Appended<V(==)>(before: Dict.Dict<string, V>, after: Dict.Dict<string, V>) {
    |after| == |before| + 1 && after[..|before|] == before
  }

  /** A texture declaration that passed the checks: LoadTexture, a TextureResource, and
      Dictionary.Add, which throws on a name already there. */
  method LoadTextureResource(s: Scene, r: ResourceMetadata, filePath: string, ghost ctx: LoadContext,
                             cfg: Configuration.Config, dev: Device) returns (thrown: bool)
    requires Describes(ctx, s.basePath, ctx.fileExists, cfg, ctx.pipelineShader, dev)
    requires r.name.Some? && filePath == ResourcePath(ctx.basePath, r)
    modifies s`textures, dev
    ensures thrown <==> Dict.HasKey(old(s.textures), r.name.value)
    ensures thrown ==> s.textures == old(s.textures)
    ensures !thrown ==>
      && Appended(old(s.textures), s.textures)
      && fresh(s.textures[|old(s.textures)|].1) && NewTexture(s.textures[|old(s.textures)|], r, ctx, old(dev.nextHandle))
    ensures dev.calls == old(dev.calls) + [GpuCall.LoadTexture(filePath, DeclaredTexture(r, ctx, old(dev.nextHandle)))]
      + TextureResourceCalls(DeclaredTexture(r, ctx, old(dev.nextHandle)), ctx)
    ensures dev.nextHandle == old(dev.nextHandle) + 1 && dev.Env() == old(dev.Env())
  {
    var texture := dev.LoadTexture(filePath);
    var textureResource := new TextureResource(r.name.value, texture, cfg, dev);
    var added := Dict.Add(s.textures, textureResource.name, textureResource);
    if added.None? {
      return true;
    }
    s.textures := added.value;
    thrown := false;
  }

  /** `resource.Generated ? GenerateModelByAlgorithm(...) : LoadModel(filePath)`. */
  method ObtainModel(r: ResourceMetadata, filePath: string, ghost ctx: LoadContext, dev: Device) returns (model: Model)
    requires ctx.defaultShader == dev.defaultShader && ctx.modelShape == dev.modelShape
    requires filePath == ResourcePath(ctx.basePath, r)
    modifies dev
    ensures model == DeclaredModel(r, ctx, old(dev.nextHandle))
    ensures model.MeshCount() == MeshCount(r, ctx.basePath, ctx.modelShape)
    ensures dev.calls == old(dev.calls) + ModelLoadCalls(r, ctx, old(dev.nextHandle))
    ensures dev.nextHandle == old(dev.nextHandle) + (if r.generated && !RaylibHelpers.IsKnownAlgorithm(r.algorithmType) then 0 else 1)
    ensures dev.Env() == old(dev.Env())
  {
    if r.generated {
      model := RaylibHelpers.GenerateModelByAlgorithm(r.algorithmType, dev);
    } else {
      model := dev.LoadModel(filePath);
    }
  }

  /** A model declaration that passed the checks: the model, an error when it has no
      mesh, otherwise a ModelResource and Dictionary.Add, which throws on a name already
      there. */
  method LoadModelResource(s: Scene, r: ResourceMetadata, filePath: string, ghost ctx: LoadContext,
                           pipelineShader: Option<Shader>, dev: Device) returns (thrown: bool)
    requires ctx.defaultShader == dev.defaultShader && ctx.modelShape == dev.modelShape && ctx.pipelineShader == pipelineShader
    requires r.name.Some? && filePath == ResourcePath(ctx.basePath, r)
    modifies s`models, dev
    ensures var corrupted := MeshCount(r, ctx.basePath, ctx.modelShape) == 0;
      && (thrown <==> !corrupted && Dict.HasKey(old(s.models), r.name.value))
      && (thrown || corrupted ==> s.models == old(s.models))
      && (!thrown && !corrupted ==>
            && Appended(old(s.models), s.models)
            && fresh(s.models[|old(s.models)|].1) && NewModel(s.models[|old(s.models)|], r, ctx, old(dev.nextHandle)))
      && dev.calls == old(dev.calls) + ModelLoadCalls(r, ctx, old(dev.nextHandle))
           + (if corrupted then [ResourceError(r, "Model is corrupted!")]
              else ModelResourceCalls(DeclaredModel(r, ctx, old(dev.nextHandle)), ctx))
    ensures dev.nextHandle == old(dev.nextHandle) + (if r.generated && !RaylibHelpers.IsKnownAlgorithm(r.algorithmType) then 0 else 1)
    ensures dev.Env() == old(dev.Env())
  {
    var model := ObtainModel(r, filePath, ctx, dev);
    if model.MeshCount() == 0 {
      dev.Log(LogError, ResourceMessage(r.name.value, "Model is corrupted!"));
      return false;
    }
    var modelResource := new ModelResource(r.name.value, model, pipelineShader, dev);
    var added := Dict.Add(s.models, modelResource.name, modelResource);
    if added.None? {
      return true;
    }
    s.models := added.value;
    thrown := false;
  }

  // ---------------------------------------------------------------- LoadResources

  /** One more declaration after a fold that has not thrown is one LoadStep; the keys
      never repeat. */
  lemma NextStep(rs: seq<ResourceMetadata>, ctx: LoadContext, h: Handle, i: nat)
    requires i < |rs| && !LoadFirst(rs, ctx, h, i).thrown
    ensures LoadFirst(rs, ctx, h, i + 1) == LoadStep(LoadFirst(rs, ctx, h, i), rs[i], ctx)
    ensures NoDup(LoadFirst(rs, ctx, h, i + 1).textures) && NoDup(LoadFirst(rs, ctx, h, i + 1).models)
  {
    LoadFirstFollowsRules(rs, ctx, h, i + 1);
  }

  /** Once Dictionary.Add has thrown, the rest of the declarations change nothing. */
  lemma {:induction false} ThrownPersists(rs: seq<ResourceMetadata>, ctx: LoadContext, h: Handle, i: nat, n: nat)
    requires i <= n <= |rs| && LoadFirst(rs, ctx, h, i).thrown
    ensures LoadFirst(rs, ctx, h, n) == LoadFirst(rs, ctx, h, i)
    decreases n - i
  {
    if i < n {
      ThrownPersists(rs, ctx, h, i, n - 1);
    }
  }

  /** LoadResources: the two fallbacks, then each declaration in order until
      Dictionary.Add throws. Its calls and handles are those of the fold; the tables'
      keys are "fallback" and the kept names unless it throws, which it does exactly
      when those names clash. Either way both tables are dictionaries, no texture
      resource in two entries. */
  method LoadResources(s: Scene, rs: seq<ResourceMetadata>, ghost ctx: LoadContext, fileExists: string -> bool,
                       cfg: Configuration.Config, pipelineShader: Option<Shader>, dev: Device) returns (thrown: bool)
    requires Describes(ctx, s.basePath, fileExists, cfg, pipelineShader, dev)
    requires s.textures == [] && s.models == []
    modifies s`textures, s`models, dev
    ensures var h := old(dev.nextHandle); var st := LoadFirst(rs, ctx, h + 2, |rs|);
      && thrown == st.thrown
      && dev.calls == old(dev.calls) + FallbackTextureCalls(ctx, h) + FallbackModelCalls(ctx, h) + st.log
      && dev.nextHandle == st.next
    ensures thrown <==> !LoadsWithoutClash(rs, ctx.basePath, ctx.fileExists, ctx.modelShape)
    ensures !thrown ==>
      && Dict.Keys(s.textures) == ["fallback"] + Kept(rs, TextureLoaded, ctx.basePath, ctx.fileExists, ctx.modelShape)
      && Dict.Keys(s.models) == ["fallback"] + Kept(rs, ModelLoaded, ctx.basePath, ctx.fileExists, ctx.modelShape)
    ensures Dict.Valid(s.textures) && Dict.Valid(s.models)
    ensures forall i, j :: 0 <= i < j < |s.textures| ==> s.textures[i].1 != s.textures[j].1
    ensures !thrown ==> Sourced(s, rs, ctx, old(dev.nextHandle) + 2, |rs|)
    ensures dev.Env() == old(dev.Env())
  {
    ghost var h := dev.nextHandle;
    LoadFallbacks(s, ctx, cfg, pipelineShader, dev);
    thrown := LoadDeclared(s, rs, ctx, h + 2, fileExists, cfg, pipelineShader, dev);
    AppendAssoc(old(dev.calls) + FallbackTextureCalls(ctx, h), FallbackModelCalls(ctx, h), LoadFirst(rs, ctx, h + 2, |rs|).log);
  }

  /** The foreach of LoadResources over the declarations, from tables holding only the
      fallbacks, with handle h as the next handle. */
  method LoadDeclared(s: Scene, rs: seq<ResourceMetadata>, ghost ctx: LoadContext, ghost h: Handle, fileExists: string -> bool,
                      cfg: Configuration.Config, pipelineShader: Option<Shader>, dev: Device) returns (thrown: bool)
    requires Describes(ctx, s.basePath, fileExists, cfg, pipelineShader, dev) && dev.nextHandle == h
    requires Dict.Keys(s.textures) == ["fallback"] && Dict.Keys(s.models) == ["fallback"]
    modifies s`textures, s`models, dev
    ensures var st := LoadFirst(rs, ctx, h, |rs|);
      && thrown == st.thrown && dev.calls == old(dev.calls) + st.log && dev.nextHandle == st.next
      && (!thrown ==> Dict.Keys(s.textures) == st.textures && Dict.Keys(s.models) == st.models)
    ensures thrown <==> !LoadsWithoutClash(rs, ctx.basePath, ctx.fileExists, ctx.modelShape)
    ensures !thrown ==>
      && Dict.Keys(s.textures) == ["fallback"] + Kept(rs, TextureLoaded, ctx.basePath, ctx.fileExists, ctx.modelShape)
      && Dict.Keys(s.models) == ["fallback"] + Kept(rs, ModelLoaded, ctx.basePath, ctx.fileExists, ctx.modelShape)
    ensures Dict.Valid(s.textures) && Dict.Valid(s.models)
    ensures old(s.textures) <= s.textures && old(s.models) <= s.models
    ensures forall i, j :: 0 <= i < j < |s.textures| ==> s.textures[i].1 != s.textures[j].1
    ensures !thrown ==> Sourced(s, rs, ctx, h, |rs|)
    ensures dev.Env() == old(dev.Env())
  {
    assert Tracks(s, dev, rs, ctx, h, 0, false, dev.calls);
    var i;
    i, thrown := LoadEach(s, rs, ctx, h, fileExists, cfg, pipelineShader, dev);
    if thrown {
      ThrownPersists(rs, ctx, h, i, |rs|);
    }
    LoadFirstFollowsRules(rs, ctx, h, |rs|);
    assert rs[..|rs|] == rs;
  }

  /** The loop itself, until the end or an exception. */
  method LoadEach(s: Scene, rs: seq<ResourceMetadata>, ghost ctx: LoadContext, ghost h: Handle, fileExists: string -> bool,
                  cfg: Configuration.Config, pipelineShader: Option<Shader>, dev: Device) returns (i: nat, thrown: bool)
    requires Describes(ctx, s.basePath, fileExists, cfg, pipelineShader, dev)
    requires Tracks(s, dev, rs, ctx, h, 0, false, dev.calls) && Sourced(s, rs, ctx, h, 0)
    modifies s`textures, s`models, dev
    ensures i <= |rs| && Tracks(s, dev, rs, ctx, h, i, thrown, old(dev.calls)) && (thrown || i == |rs|)
    ensures old(s.textures) <= s.textures && old(s.models) <= s.models
    ensures !thrown ==> Sourced(s, rs, ctx, h, i)
    ensures dev.Env() == old(dev.Env())
  {
    i := 0;
    thrown := false;
    while i < |rs| && !thrown
      invariant 0 <= i <= |rs| && Tracks(s, dev, rs, ctx, h, i, thrown, old(dev.calls))
      invariant Describes(ctx, s.basePath, fileExists, cfg, pipelineShader, dev) && dev.Env() == old(dev.Env())
      invariant old(s.textures) <= s.textures && old(s.models) <= s.models
      invariant !thrown ==> Sourced(s, rs, ctx, h, i)
    {
      thrown := LoadSourced(s, rs, i, ctx, h, old(dev.calls), fileExists, cfg, pipelineShader, dev);
      i := i + 1;
    }
  }
}
