/** Core/Scene.cs, the rules behind loading a scene, stated on the declarations alone:
    which declared resources are kept, what a resolve directive becomes, and which
    entity declarations end up in which collection. The declarations are
    Core/Resources/SceneMetadata.cs, ResourceMetadata.cs and EntityResourceMetadata.cs. */
module SceneRules {
  import opened Common
  import Dict
  import opened Raylib
  import opened Resources
  import opened Values
  import opened Binding
  import opened Entities
  import RaylibHelpers

  // ---------------------------------------------------------------- declarations

  datatype ResourceMetadata = ResourceMetadata(
    name: Option<string>,
    resourceType: ResourceType,
    filePath: Option<string>,
    generated: bool,
    algorithmType: Option<string>)

  /** EntityResourceType; Unknown (0) is the enum default. */
  datatype EntityType = UnknownEntity | StaticType | DynamicType | WorldType | CameraType | PointLightType

  datatype EntityMetadata = EntityMetadata(name: Option<string>, entityType: EntityType, properties: Dict.Dict<string, Value>)

  datatype SceneMetadata = SceneMetadata(resources: seq<ResourceMetadata>, entities: seq<EntityMetadata>)

  // ---------------------------------------------------------------- resources

  /** `{BasePath}/{resource.FilePath}`, built like a world's map file. */
  function ResourcePath(basePath: string, r: ResourceMetadata): string {
    MapFile(basePath, r.filePath)
  }

  /** What LoadResources does with one declaration. */
  datatype Outcome =
    | BadName | FileNotFound | NoAlgorithm | GeneratedTexture | TextureLoaded | CorruptedModel | ModelLoaded | UnknownType

  /** The meshes of the model a model declaration yields: the file's (`modelShape`, an
      oracle), or one for the "box" algorithm and none for any other. */
  function MeshCount(r: ResourceMetadata, basePath: string, modelShape: string -> (nat, nat)): nat {
    if r.generated then (if RaylibHelpers.IsKnownAlgorithm(r.algorithmType) then 1 else 0)
    else modelShape(ResourcePath(basePath, r)).0
  }

  /** The checks of LoadResources, in their order. `fileExists` is File.Exists. */
  function OutcomeOf(r: ResourceMetadata, basePath: string, fileExists: string -> bool, modelShape: string -> (nat, nat)): Outcome {
    var path := ResourcePath(basePath, r);
    if IsNullOrWhiteSpace(r.name) then BadName
    else if !r.generated && (IsNullOrWhiteSpace(Some(path)) || !fileExists(path)) then FileNotFound
    else if r.generated && IsNullOrWhiteSpace(r.algorithmType) then NoAlgorithm
    else
      match r.resourceType
      case TextureType => if r.generated then GeneratedTexture else TextureLoaded
      case ModelType => if MeshCount(r, basePath, modelShape) == 0 then CorruptedModel else ModelLoaded
      case NoResource => UnknownType
  }

  /** The names of the declarations that are loaded as a texture (o = TextureLoaded) or as
      a model (o = ModelLoaded), in declaration order. */
  function Kept(rs: seq<ResourceMetadata>, o: Outcome, basePath: string, fileExists: string -> bool, modelShape: string -> (nat, nat)): seq<string>
    requires o == TextureLoaded || o == ModelLoaded
    decreases |rs|
  {
    if rs == [] then []
    else
      var r := rs[|rs| - 1];
      Kept(rs[..|rs| - 1], o, basePath, fileExists, modelShape)
      + (if OutcomeOf(r, basePath, fileExists, modelShape) == o then [r.name.value] else [])
  }

  /** The path of a file resource is never null or white space: it contains the '/'
      after the base path. The IsNullOrWhiteSpace(filePath) test is therefore dead. */
  lemma PathNeverBlank(basePath: string, r: ResourceMetadata)
    ensures !IsNullOrWhiteSpace(Some(ResourcePath(basePath, r)))
  {
    var path := ResourcePath(basePath, r);
    assert path[|basePath|] == '/';
  }

  /** A declaration is loaded only when all the checks pass: it is skipped exactly when its
      name is null or white space, a file resource's file does not exist, a generated
      resource has no algorithm, it is a generated texture, it is a model without meshes,
      or its type is unknown (None). */
  lemma {:induction false} SkipConditions(r: ResourceMetadata, basePath: string, fileExists: string -> bool, modelShape: string -> (nat, nat))
    ensures OutcomeOf(r, basePath, fileExists, modelShape) !in {TextureLoaded, ModelLoaded} <==>
      || IsNullOrWhiteSpace(r.name)
      || (!r.generated && !fileExists(ResourcePath(basePath, r)))
      || (r.generated && IsNullOrWhiteSpace(r.algorithmType))
      || (r.resourceType == TextureType && r.generated)
      || (r.resourceType == ModelType && MeshCount(r, basePath, modelShape) == 0)
      || r.resourceType == NoResource
  {
    PathNeverBlank(basePath, r);
  }

  /** A kept name is a declared one, and every declaration with that outcome has its name
      kept. */
  lemma {:induction false} KeptNames(rs: seq<ResourceMetadata>, o: Outcome, basePath: string, fileExists: string -> bool, modelShape: string -> (nat, nat))
    requires o == TextureLoaded || o == ModelLoaded
    ensures forall k :: 0 <= k < |rs| && OutcomeOf(rs[k], basePath, fileExists, modelShape) == o ==>
      rs[k].name.value in Kept(rs, o, basePath, fileExists, modelShape)
    ensures forall n :: n in Kept(rs, o, basePath, fileExists, modelShape) ==>
      exists k :: 0 <= k < |rs| && OutcomeOf(rs[k], basePath, fileExists, modelShape) == o && rs[k].name == Some(n)
    decreases |rs|
  {
    if rs != [] {
      var init := rs[..|rs| - 1];
      KeptNames(init, o, basePath, fileExists, modelShape);
      forall n | n in Kept(rs, o, basePath, fileExists, modelShape)
        ensures exists k :: 0 <= k < |rs| && OutcomeOf(rs[k], basePath, fileExists, modelShape) == o && rs[k].name == Some(n)
      {
        if n in Kept(init, o, basePath, fileExists, modelShape) {
          var k :| 0 <= k < |init| && OutcomeOf(init[k], basePath, fileExists, modelShape) == o && init[k].name == Some(n);
          assert rs[k] == init[k];
        } else {
          assert rs[|rs| - 1].name == Some(n);
        }
      }
    }
  }

  /** The names kept from a prefix of the declarations are a prefix of those kept from
      all of them. */
  lemma {:induction false} KeptPrefix(rs: seq<ResourceMetadata>, j: nat, o: Outcome, basePath: string, fileExists: string -> bool, modelShape: string -> (nat, nat))
    requires j <= |rs| && (o == TextureLoaded || o == ModelLoaded)
    ensures Kept(rs[..j], o, basePath, fileExists, modelShape) <= Kept(rs, o, basePath, fileExists, modelShape)
    decreases |rs| - j
  {
    if j < |rs| {
      KeptPrefix(rs, j + 1, o, basePath, fileExists, modelShape);
      assert rs[..j + 1][..j] == rs[..j];
    } else {
      assert rs[..j] == rs;
    }
  }

  /** Appending one declaration to the loaded prefix. */
  lemma KeptStep(rs: seq<ResourceMetadata>, i: nat, o: Outcome, basePath: string, fileExists: string -> bool, modelShape: string -> (nat, nat))
    requires i < |rs| && (o == TextureLoaded || o == ModelLoaded)
    ensures Kept(rs[..i + 1], o, basePath, fileExists, modelShape) ==
      Kept(rs[..i], o, basePath, fileExists, modelShape)
      + (if OutcomeOf(rs[i], basePath, fileExists, modelShape) == o then [rs[i].name.value] else [])
  {
    assert rs[..i + 1][..i] == rs[..i];
  }

  /** Where the names Kept keeps come from: the positions, in increasing order, of the
      declarations with outcome o; the k-th kept name is the name of the declaration at
      the k-th position. */
  function KeptAt(rs: seq<ResourceMetadata>, o: Outcome, basePath: string, fileExists: string -> bool, modelShape: string -> (nat, nat)): (r: seq<nat>)
    requires o == TextureLoaded || o == ModelLoaded
    ensures |r| == |Kept(rs, o, basePath, fileExists, modelShape)|
    ensures forall k :: 0 <= k < |r| ==>
      && r[k] < |rs| && OutcomeOf(rs[r[k]], basePath, fileExists, modelShape) == o
      && Kept(rs, o, basePath, fileExists, modelShape)[k] == rs[r[k]].name.value
    ensures forall a, b :: 0 <= a < b < |r| ==> r[a] < r[b]
    decreases |rs|
  {
    if rs == [] then []
    else
      var n := |rs| - 1;
      KeptAt(rs[..n], o, basePath, fileExists, modelShape)
      + (if OutcomeOf(rs[n], basePath, fileExists, modelShape) == o then [n] else [])
  }

  /** KeptAt grows with the declarations as Kept does. */
  lemma KeptAtStep(rs: seq<ResourceMetadata>, i: nat, o: Outcome, basePath: string, fileExists: string -> bool, modelShape: string -> (nat, nat))
    requires i < |rs| && (o == TextureLoaded || o == ModelLoaded)
    ensures KeptAt(rs[..i + 1], o, basePath, fileExists, modelShape) ==
      KeptAt(rs[..i], o, basePath, fileExists, modelShape)
      + (if OutcomeOf(rs[i], basePath, fileExists, modelShape) == o then [i] else [])
  {
    assert rs[..i + 1][..i] == rs[..i];
  }

  /** Every table starts with "fallback"; Dictionary.Add throws on a name already there,
      so loading succeeds exactly when the kept names, after "fallback", are all distinct. */
  predicate LoadsWithoutClash(rs: seq<ResourceMetadata>, basePath: string, fileExists: string -> bool, modelShape: string -> (nat, nat)) {
    && NoDup(["fallback"] + Kept(rs, TextureLoaded, basePath, fileExists, modelShape))
    && NoDup(["fallback"] + Kept(rs, ModelLoaded, basePath, fileExists, modelShape))
  }

  /** A texture or a model declared under the name "fallback" makes loading throw. */
  lemma {:induction false} FallbackNameClashes(rs: seq<ResourceMetadata>, k: nat, basePath: string, fileExists: string -> bool, modelShape: string -> (nat, nat))
    requires k < |rs| && rs[k].name == Some("fallback")
    requires OutcomeOf(rs[k], basePath, fileExists, modelShape) in {TextureLoaded, ModelLoaded}
    ensures !LoadsWithoutClash(rs, basePath, fileExists, modelShape)
  {
    var o := OutcomeOf(rs[k], basePath, fileExists, modelShape);
    KeptNames(rs, o, basePath, fileExists, modelShape);
    var names := ["fallback"] + Kept(rs, o, basePath, fileExists, modelShape);
    var j :| 0 <= j < |Kept(rs, o, basePath, fileExists, modelShape)| && Kept(rs, o, basePath, fileExists, modelShape)[j] == "fallback";
    assert names[0] == names[j + 1];
  }

  // ---------------------------------------------------------------- property resolution

  /** The error logged for a directive whose resource is missing. The texture and model
      messages lack the space after the period. */
  function MissingResourceMessage(name: string, kind: string): string {
    "[Scene]: Couldn't resolve property \"" + name + "\".Couldn't find target " + kind + "!"
  }

  function UnknownResolveTypeMessage(name: string): string {
    "[Scene]: Couldn't resolve property \"" + name + "\". Unknown resource type!"
  }

  function MissingResourceError(name: string, kind: string): GpuCall {
    TraceLog(LogError, MissingResourceMessage(name, kind))
  }

  function UnknownResolveTypeError(name: string): GpuCall {
    TraceLog(LogError, UnknownResolveTypeMessage(name))
  }

  /** One property value: a ResolveProperty with a non-empty name becomes the resource of
      its kind with exactly that name, or that kind's "fallback" with an error; anything
      else stays. None means an exception escapes: the conversion threw, or the "fallback"
      entry is missing (the indexer throws). */
  function ResolveValue(v: Value, textures: Dict.Dict<string, TextureResource>, models: Dict.Dict<string, ModelResource>, conv: Converter)
    : (r: Option<(Value, seq<GpuCall>)>)
    ensures r.None? ==> v.JObject? || !Dict.HasKey(textures, "fallback") || !Dict.HasKey(models, "fallback")
    ensures r.Some? && r.value.0 != v ==>
      || (r.value.0.TextureRef? && exists n :: (n, r.value.0.texture) in textures)
      || (r.value.0.ModelRef? && exists n :: (n, r.value.0.model) in models)
  {
    match ConvertToResolve(v, conv)
    case None => None
    case Some(None) => Some((v, []))
    case Some(Some(p)) =>
      if IsNullOrEmpty(p.name) then Some((v, []))
      else
        match p.resolveType
        case TextureType => TextureDirective(p.name.value, textures)
        case ModelType => ModelDirective(p.name.value, models)
        case NoResource => Some((v, [UnknownResolveTypeError(p.name.value)]))
  }

  /** A texture directive naming `n`: the texture of that name, or "fallback" with an
      error; None when "fallback" is missing too. */
  function TextureDirective(n: string, textures: Dict.Dict<string, TextureResource>): (r: Option<(Value, seq<GpuCall>)>)
    ensures r.None? ==> !Dict.HasKey(textures, "fallback")
    ensures r.Some? ==> r.value.0.TextureRef? && exists k :: (k, r.value.0.texture) in textures
  {
    match Dict.Get(textures, n)
    case Some(t) => Some((TextureRef(t), []))
    case None =>
      match Dict.Get(textures, "fallback")
      case Some(f) => Some((TextureRef(f), [MissingResourceError(n, "texture")]))
      case None => None
  }

  /** A model directive naming `n`, likewise. */
  function ModelDirective(n: string, models: Dict.Dict<string, ModelResource>): (r: Option<(Value, seq<GpuCall>)>)
    ensures r.None? ==> !Dict.HasKey(models, "fallback")
    ensures r.Some? ==> r.value.0.ModelRef? && exists k :: (k, r.value.0.model) in models
  {
    match Dict.Get(models, n)
    case Some(m) => Some((ModelRef(m), []))
    case None =>
      match Dict.Get(models, "fallback")
      case Some(f) => Some((ModelRef(f), [MissingResourceError(n, "model")]))
      case None => None
  }

  /** The resolution of each property value, in enumeration order. */
  type Resolutions = seq<Option<(Value, seq<GpuCall>)>>

  function ResolveEach(props: Dict.Dict<string, Value>, textures: Dict.Dict<string, TextureResource>,
                       models: Dict.Dict<string, ModelResource>, conv: Converter): (r: Resolutions)
    ensures |r| == |props|
  {
    seq(|props|, k requires 0 <= k < |props| => ResolveValue(props[k].1, textures, models, conv))
  }

  /** Where resolving a prefix of an entity's properties stands. */
  datatype Resolving = Resolving(props: Dict.Dict<string, Value>, log: seq<GpuCall>, thrown: bool)

  /** The inner foreach over the first n properties, given each value's resolution: each
      value is written back through the indexer under the key being enumerated, which
      overwrites that entry in place (IndexerOverwritesInPlace), in enumeration order,
      until an exception. */
  function ResolveFirst(props: Dict.Dict<string, Value>, res: Resolutions, n: nat): (r: Resolving)
    requires n <= |props| == |res|
    ensures |r.props| == |props|
  {
    if n == 0 then Resolving(props, [], false)
    else
      var s := ResolveFirst(props, res, n - 1);
      if s.thrown then s
      else
        match res[n - 1]
        case None => s.(thrown := true)
        case Some((v, log)) => s.(props := s.props[n - 1 := (props[n - 1].0, v)], log := s.log + log)
  }

  /** An exception escapes the resolution of the first n properties exactly when one of
      their values' resolution throws. */
  lemma {:induction false} ResolveThrows(props: Dict.Dict<string, Value>, res: Resolutions, n: nat)
    requires n <= |props| == |res|
    ensures ResolveFirst(props, res, n).thrown <==> exists k :: 0 <= k < n && res[k].None?
  {
    if n > 0 {
      ResolveThrows(props, res, n - 1);
      var s := ResolveFirst(props, res, n - 1);
      if s.thrown {
        var k :| 0 <= k < n - 1 && res[k].None?;
        assert ResolveFirst(props, res, n).thrown;
      } else if res[n - 1].None? {
        assert ResolveFirst(props, res, n).thrown;
      } else {
        assert !ResolveFirst(props, res, n).thrown;
        forall k | 0 <= k < n
          ensures res[k].Some?
        {
          if k < n - 1 {
            assert !(0 <= k < n - 1 && res[k].None?);
          }
        }
      }
    }
  }

  /** Unless an exception escapes, the keys and their order are unchanged and each
      value of the first n is its own resolution. */
  lemma {:induction false} ResolvedInPlace(props: Dict.Dict<string, Value>, res: Resolutions, n: nat)
    requires n <= |props| == |res|
    requires !ResolveFirst(props, res, n).thrown
    ensures var s := ResolveFirst(props, res, n);
      && (forall k :: 0 <= k < n ==> res[k].Some? && s.props[k] == (props[k].0, res[k].value.0))
      && (forall k :: n <= k < |props| ==> s.props[k] == props[k])
  {
    if n > 0 {
      ResolvedInPlace(props, res, n - 1);
    }
  }

  /** Each step of the fold is the Dictionary indexer: in a dictionary (no key twice) the
      key being enumerated is still at its place, and the indexer overwrites it there. */
  lemma IndexerOverwritesInPlace(props: Dict.Dict<string, Value>, res: Resolutions, n: nat)
    requires 0 < n <= |props| == |res| && Dict.Valid(props)
    requires !ResolveFirst(props, res, n).thrown
    ensures !ResolveFirst(props, res, n - 1).thrown && res[n - 1].Some?
    ensures ResolveFirst(props, res, n).props
         == Dict.Put(ResolveFirst(props, res, n - 1).props, props[n - 1].0, res[n - 1].value.0)
  {
    var s := ResolveFirst(props, res, n - 1);
    var v := res[n - 1].value.0;
    ResolvedInPlace(props, res, n - 1);
    forall j | 0 <= j < |props| && j != n - 1
      ensures s.props[j].0 != s.props[n - 1].0
    {
      assert Dict.Keys(props)[j] == props[j].0 && Dict.Keys(props)[n - 1] == props[n - 1].0;
    }
    Dict.PutInPlace(s.props, n - 1, v);
  }

  // ---------------------------------------------------------------- entities

  /** An entity declaration the loader processes; the others are skipped with an error. */
  predicate IsNamed(d: EntityMetadata) {
    !IsNullOrWhiteSpace(d.name)
  }

  /** The run-time class an entity type is constructed as, and the properties it binds. */
  function ClassName(t: EntityType): string {
    match t
    case StaticType => "StaticEntity"
    case DynamicType => "DynamicEntity"
    case WorldType => "WorldEntity"
    case CameraType => "CameraEntity"
    case PointLightType => "PointLightEntity"
    case UnknownEntity => ""
  }

  function FieldsOf(t: EntityType): FieldTable {
    match t
    case StaticType => StaticFields
    case DynamicType => StaticFields
    case WorldType => WorldFields
    case CameraType => CameraFields
    case PointLightType => PointLightFields
    case UnknownEntity => []
  }

  /** The binding an entity's constructor performs on its resolved properties; an
      unknown type constructs nothing. */
  function BindingOf(t: EntityType, props: Dict.Dict<string, Value>, conv: Converter): BindState {
    if t == UnknownEntity then BindState(map[], [], false)
    else Bind(ClassName(t), FieldsOf(t), props, conv)
  }

  /** Loading a named declaration throws: in resolution, in binding, or (a world) because
      its map file does not exist. An Unknown entity is only resolved. */
  predicate Throws(d: EntityMetadata, textures: Dict.Dict<string, TextureResource>, models: Dict.Dict<string, ModelResource>,
                   conv: Converter, basePath: string, fileExists: string -> bool)
  {
    var s := ResolveFirst(d.properties, ResolveEach(d.properties, textures, models, conv), |d.properties|);
    || s.thrown
    || BindingOf(d.entityType, s.props, conv).thrown
    || (d.entityType == WorldType
        && !fileExists(MapFile(basePath, AsString(BindingOf(WorldType, s.props, conv).bound, "MapPath", None))))
  }

  /** The named declarations whose type is in `types`, in declaration order. */
  function Declared(ds: seq<EntityMetadata>, types: set<EntityType>): seq<EntityMetadata>
    decreases |ds|
  {
    if ds == [] then []
    else
      var d := ds[|ds| - 1];
      Declared(ds[..|ds| - 1], types) + (if IsNamed(d) && d.entityType in types then [d] else [])
  }

  const RenderableTypes: set<EntityType> := {StaticType, DynamicType, WorldType}

  /** Appending one declaration. */
  lemma DeclaredStep(ds: seq<EntityMetadata>, i: nat, types: set<EntityType>)
    requires i < |ds|
    ensures Declared(ds[..i + 1], types) ==
      Declared(ds[..i], types) + (if IsNamed(ds[i]) && ds[i].entityType in types then [ds[i]] else [])
  {
    assert ds[..i + 1][..i] == ds[..i];
  }
}
