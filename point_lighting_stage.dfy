/** Core/Rendering/PointLightingStage.cs: the second pass of the deferred renderer. It
    binds the geometry channels to a unit sphere, uploads up to ten point lights of the
    main scene into the shader's light slots, draws one sphere per selected light into a
    one-channel render buffer, and hands on "lighting". */
module PointLightingStages {
  import opened Common
  import Dict
  import opened Raylib
  import opened RenderBuffers
  import opened Entities
  import opened Scenes
  import opened SceneCreation
  import opened StageCommon

  /** MaxLights: the number of light slots the shader declares. */
  const MaxLights := 10

  /** The channel the stage registers. */
  const LightingChannels: seq<string> := ["lighting"]

  const LightingVertex := "Data/Shaders/pointLighting.vert"
  const LightingFragment := "Data/Shaders/pointLighting.frag"

  /** The mesh every light is drawn with: a sphere of radius 1, scaled by the light's radius. */
  const LightSphere := Sphere(1.0, 32, 32)

  // ---------------------------------------------------------------- light slots

  /** PointLightShaderLocations: the uniform locations of one light slot. */
  datatype SlotLocations = SlotLocations(position: int, radius: int, intensity: int, color: int)

  /** $"lights[{i}].{field}" for a slot number below MaxLights, which has one digit. */
  function SlotName(i: nat, field: string): string
    requires i < MaxLights
  {
    "lights[" + [('0' as int + i) as char] + "]." + field
  }

  /** Distinct slots, or distinct fields of a slot, are distinct uniforms. */
  lemma SlotNamesDistinct(i: nat, f: string, j: nat, g: string)
    requires i < MaxLights && j < MaxLights
    ensures SlotName(i, f) == SlotName(j, g) <==> i == j && f == g
  {
    if SlotName(i, f) == SlotName(j, g) {
      assert SlotName(i, f)[7] == ('0' as int + i) as char;
      assert SlotName(j, g)[7] == ('0' as int + j) as char;
      assert SlotName(i, f)[10..] == f;
      assert SlotName(j, g)[10..] == g;
    }
  }

  /** The locations of slot i, as the shader reports them. */
  function Slot(shader: Shader, location: (Shader, string) -> int, i: nat): SlotLocations
    requires i < MaxLights
  {
    SlotLocations(location(shader, SlotName(i, "position")), location(shader, SlotName(i, "radius")),
                  location(shader, SlotName(i, "intensity")), location(shader, SlotName(i, "color")))
  }

  /** The first n slots, in slot order. */
  function SlotTable(shader: Shader, location: (Shader, string) -> int, n: nat): seq<SlotLocations>
    requires n <= MaxLights
  {
    seq(n, i requires 0 <= i < n => Slot(shader, location, i))
  }

  /** The loop of the constructor: one entry per slot, MaxLights of them, entry i holding
      the locations of slot i's position, radius, intensity and color. */
  method BuildSlotTable(shader: Shader, location: (Shader, string) -> int) returns (table: seq<SlotLocations>)
    ensures |table| == MaxLights && table == SlotTable(shader, location, MaxLights)
  {
    table := [];
    for i := 0 to MaxLights
      invariant table == SlotTable(shader, location, i)
    {
      var position := location(shader, SlotName(i, "position"));
      var radius := location(shader, SlotName(i, "radius"));
      var intensity := location(shader, SlotName(i, "intensity"));
      var color := location(shader, SlotName(i, "color"));
      table := table + [SlotLocations(position, radius, intensity, color)];
    }
  }

  // ---------------------------------------------------------------- inputs

  /** The names the stage reads from its input, in order. */
  const LightingInputs: seq<string> := ["diffuse", "normal", "specular", "depth"]

  /** The material map of the light model each input fills: depth goes to the height map. */
  const InputMaps: seq<MaterialMap> := [DiffuseMap, NormalMap, SpecularMap, HeightMap]

  /** Raylib.SetMaterialTexture(ref model, 0, slot, ref texture). */
  function WithMap(m: Model, slot: MaterialMap, t: Texture2D): Model
    requires |m.materials| > 0
  {
    m.(materials := m.materials[0 := m.materials[0].(maps := m.materials[0].maps[slot := t])])
  }

  /** The model after binding the found inputs `ts` in order, the k-th to map k. */
  function WithMaps(m: Model, ts: seq<Texture2D>): (r: Model)
    requires |m.materials| > 0 && |ts| <= |InputMaps|
    ensures r.meshes == m.meshes && |r.materials| == |m.materials|
    decreases |ts|
  {
    if ts == [] then m else WithMap(WithMaps(m, ts[..|ts| - 1]), InputMaps[|ts| - 1], ts[|ts| - 1])
  }

  /** The calls binding the found inputs `ts` makes. */
  function BindCalls(ts: seq<Texture2D>): seq<GpuCall>
    requires |ts| <= |InputMaps|
  {
    seq(|ts|, k requires 0 <= k < |ts| => GpuCall.SetMaterialTexture(0, InputMaps[k], ts[k]))
  }

  lemma BindOneMore(m: Model, ts: seq<Texture2D>, t: Texture2D)
    requires |m.materials| > 0 && |ts| < |InputMaps|
    ensures WithMaps(m, ts + [t]) == WithMap(WithMaps(m, ts), InputMaps[|ts|], t)
    ensures BindCalls(ts + [t]) == BindCalls(ts) + [GpuCall.SetMaterialTexture(0, InputMaps[|ts|], t)]
  {
    var us := ts + [t];
    assert us[..|us| - 1] == ts && us[|us| - 1] == t;
    forall k | 0 <= k < |us|
      ensures BindCalls(us)[k] == (BindCalls(ts) + [GpuCall.SetMaterialTexture(0, InputMaps[|ts|], t)])[k]
    {
    }
  }

  /** One lookup after i successful ones, on the model and calls it starts from (m1,
      c1) and ends with (m2, c2): the state "the first i lookups bound" becomes "the
      first i + 1 lookups bound". */
  lemma BindStep(values: Channels, i: nat, m0: Model, c0: seq<GpuCall>, m1: Model, c1: seq<GpuCall>, m2: Model, c2: seq<GpuCall>)
    requires i < |LightingInputs| && |m0.materials| > 0 && |Lookups(values, LightingInputs, i)| == i
    requires m1 == WithMaps(m0, Lookups(values, LightingInputs, i)) && c1 == c0 + BindCalls(Lookups(values, LightingInputs, i))
    requires var t := Dict.Get(values, LightingInputs[i]);
      if t.None? then m2 == m1 && c2 == c1
      else m2 == WithMap(m1, InputMaps[i], t.value) && c2 == c1 + [GpuCall.SetMaterialTexture(0, InputMaps[i], t.value)]
    ensures m2 == WithMaps(m0, Lookups(values, LightingInputs, i + 1)) && c2 == c0 + BindCalls(Lookups(values, LightingInputs, i + 1))
  {
    LookupsStep(values, LightingInputs, i);
    var t := Dict.Get(values, LightingInputs[i]);
    if t.Some? {
      BindOneMore(m0, Lookups(values, LightingInputs, i), t.value);
    }
  }

  /** Model `m` and calls `c` are what the first n lookups leave, from `m0` and `c0`. */
  ghost predicate Binds(values: Channels, n: nat, m0: Model, c0: seq<GpuCall>, m: Model, c: seq<GpuCall>)
    requires n <= |LightingInputs|
  {
    && |m0.materials| > 0
    && m == WithMaps(m0, Lookups(values, LightingInputs, n))
    && c == c0 + BindCalls(Lookups(values, LightingInputs, n))
  }

  /** The lookups end after all four or at the first that throws; what they left then
      is what all four leave. */
  lemma Finish(values: Channels, n: nat, m0: Model, c0: seq<GpuCall>, m: Model, c: seq<GpuCall>)
    requires 0 < n <= |LightingInputs| && Binds(values, n, m0, c0, m, c)
    requires n < |LightingInputs| ==> |Lookups(values, LightingInputs, n)| < n
    ensures var ts := Lookups(values, LightingInputs, |LightingInputs|);
      && (|ts| < |LightingInputs| <==> |Lookups(values, LightingInputs, n)| < n)
      && m == WithMaps(m0, ts) && c == c0 + BindCalls(ts)
  {
    if n < |LightingInputs| {
      LookupsStop(values, LightingInputs, n, |LightingInputs|);
    }
  }

  /** The position of a map among the inputs. */
  function MapIndex(slot: MaterialMap): nat {
    match slot
    case DiffuseMap => 0
    case NormalMap => 1
    case SpecularMap => 2
    case HeightMap => 3
  }

  /** Each input fills its own map. */
  lemma InputMapsDistinct()
    ensures forall i, j :: 0 <= i < j < |InputMaps| ==> InputMaps[i] != InputMaps[j]
  {
    forall k | 0 <= k < |InputMaps|
      ensures MapIndex(InputMaps[k]) == k
    {
    }
  }

  /** Binding leaves map k holding the k-th found input, material 0's shader and the
      other materials as they were. */
  lemma {:induction false} WithMapsHolds(m: Model, ts: seq<Texture2D>)
    requires |m.materials| > 0 && |ts| <= |InputMaps|
    ensures var r := WithMaps(m, ts);
      && (forall k :: 0 <= k < |ts| ==> InputMaps[k] in r.materials[0].maps && r.materials[0].maps[InputMaps[k]] == ts[k])
      && r.materials[0].shader == m.materials[0].shader
      && r.materials[1..] == m.materials[1..]
    decreases |ts|
  {
    if ts != [] {
      WithMapsHolds(m, ts[..|ts| - 1]);
      InputMapsDistinct();
    }
  }

  /** With all four names present, the light model's material samples each geometry
      channel in its own map: diffuse, normal, specular, and depth as the height map. */
  lemma InputsReachLightModel(m: Model, values: Channels)
    requires |m.materials| > 0
    requires forall k :: 0 <= k < |LightingInputs| ==> Dict.HasKey(values, LightingInputs[k])
    ensures var maps := WithMaps(m, Lookups(values, LightingInputs, |LightingInputs|)).materials[0].maps;
      forall k :: 0 <= k < |LightingInputs| ==>
        InputMaps[k] in maps && Dict.Get(values, LightingInputs[k]) == Some(maps[InputMaps[k]])
  {
    LookupsSpec(values, LightingInputs, |LightingInputs|);
    WithMapsHolds(m, Lookups(values, LightingInputs, |LightingInputs|));
  }

  // ---------------------------------------------------------------- lights

  /** The lights the stage uses: the first MaxLights of the scene's, in order. */
  function Selected(ls: seq<PointLightEntity>): seq<PointLightEntity> {
    if |ls| <= MaxLights then ls else ls[..MaxLights]
  }

  /** The uploads of one light into one slot. */
  function LightUniforms(shader: Shader, slot: SlotLocations, l: PointLightEntity): seq<GpuCall> {
    [SetShaderValue(shader, slot.position, UVec3(l.position)),
     SetShaderValue(shader, slot.radius, UFloat(l.radius)),
     SetShaderValue(shader, slot.intensity, UFloat(l.intensity)),
     SetShaderValue(shader, slot.color, UNormalizedColor(l.color))]
  }

  /** The uploads of `lights`, the k-th into slot k. */
  function UploadCalls(shader: Shader, table: seq<SlotLocations>, lights: seq<PointLightEntity>): seq<GpuCall>
    requires |lights| <= |table|
  {
    seq(4 * |lights|, k requires 0 <= k < 4 * |lights| => LightUniforms(shader, table[k / 4], lights[k / 4])[k % 4])
  }

  lemma UploadCallsStep(shader: Shader, table: seq<SlotLocations>, lights: seq<PointLightEntity>, l: PointLightEntity)
    requires |lights| < |table|
    ensures UploadCalls(shader, table, lights + [l]) == UploadCalls(shader, table, lights) + LightUniforms(shader, table[|lights|], l)
  {
    var n := |lights|;
    forall k | 4 * n <= k < 4 * n + 4
      ensures UploadCalls(shader, table, lights + [l])[k] == LightUniforms(shader, table[n], l)[k - 4 * n]
    {
      assert k / 4 == n;
    }
  }

  /** The k-th light is written to slot k, and nothing else is written there: the four
      uploads at 4k..4k+3 carry light k's position, radius, intensity and color to slot
      k's locations. */
  lemma LightInOwnSlot(shader: Shader, table: seq<SlotLocations>, lights: seq<PointLightEntity>, k: nat)
    requires k < |lights| <= |table|
    ensures var u := UploadCalls(shader, table, lights);
      && |u| == 4 * |lights|
      && u[4 * k] == SetShaderValue(shader, table[k].position, UVec3(lights[k].position))
      && u[4 * k + 1] == SetShaderValue(shader, table[k].radius, UFloat(lights[k].radius))
      && u[4 * k + 2] == SetShaderValue(shader, table[k].intensity, UFloat(lights[k].intensity))
      && u[4 * k + 3] == SetShaderValue(shader, table[k].color, UNormalizedColor(lights[k].color))
  {
    assert (4 * k) / 4 == k && (4 * k + 1) / 4 == k && (4 * k + 2) / 4 == k && (4 * k + 3) / 4 == k;
  }

  /** The foreach over the scene's point lights, with its break: the first MaxLights are
      uploaded, the k-th into slot k, and collected in order. */
  method UploadLights(shader: Shader, table: seq<SlotLocations>, pointLights: seq<PointLightEntity>, dev: Device)
    returns (lights: seq<PointLightEntity>)
    requires |table| == MaxLights
    modifies dev
    ensures lights == Selected(pointLights)
    ensures |lights| <= MaxLights && (|pointLights| <= MaxLights ==> lights == pointLights) && lights <= pointLights
    ensures dev.calls == old(dev.calls) + UploadCalls(shader, table, lights)
    ensures dev.state == old(dev.state) && dev.nextHandle == old(dev.nextHandle) && dev.Env() == old(dev.Env())
  {
    lights := [];
    var i := 0;
    while i < |pointLights|
      invariant 0 <= i <= |pointLights| && i <= MaxLights && lights == pointLights[..i]
      invariant dev.calls == old(dev.calls) + UploadCalls(shader, table, lights)
      invariant dev.state == old(dev.state) && dev.nextHandle == old(dev.nextHandle) && dev.Env() == old(dev.Env())
    {
      if |lights| == MaxLights {
        break;
      }
      var light := pointLights[i];
      var slot := table[|lights|];
      dev.Issue(SetShaderValue(shader, slot.position, UVec3(light.position)));
      dev.Issue(SetShaderValue(shader, slot.radius, UFloat(light.radius)));
      dev.Issue(SetShaderValue(shader, slot.intensity, UFloat(light.intensity)));
      dev.Issue(SetShaderValue(shader, slot.color, UNormalizedColor(light.color)));
      UploadCallsStep(shader, table, lights, light);
      AppendAssoc(old(dev.calls), UploadCalls(shader, table, lights), LightUniforms(shader, slot, light));
      assert pointLights[..i + 1] == lights + [light];
      lights := lights + [light];
      i := i + 1;
    }
  }

  /** The draw of each light: its sphere at its position, scaled by its radius. */
  function LightDraws(model: Model, lights: seq<PointLightEntity>): seq<GpuCall> {
    seq(|lights|, k requires 0 <= k < |lights| => DrawModel(model, lights[k].position, lights[k].radius, White))
  }

  /** The foreach over the selected lights. */
  method DrawLights(model: Model, lights: seq<PointLightEntity>, dev: Device)
    modifies dev
    ensures dev.calls == old(dev.calls) + LightDraws(model, lights)
    ensures dev.state == old(dev.state) && dev.nextHandle == old(dev.nextHandle) && dev.Env() == old(dev.Env())
  {
    for i := 0 to |lights|
      invariant dev.calls == old(dev.calls) + LightDraws(model, lights[..i])
      invariant dev.state == old(dev.state) && dev.nextHandle == old(dev.nextHandle) && dev.Env() == old(dev.Env())
    {
      dev.Issue(DrawModel(model, lights[i].position, lights[i].radius, White));
      assert LightDraws(model, lights[..i + 1]) == LightDraws(model, lights[..i]) + [DrawModel(model, lights[i].position, lights[i].radius, White)];
    }
    assert lights[..|lights|] == lights;
  }

  /** The calls inside the buffer's bracket: the camera's 3D mode around the light draws,
      with backface culling off around the draws. */
  function LightPass(cam: Camera3D, model: Model, lights: seq<PointLightEntity>): seq<GpuCall> {
    CameraPass(cam, [DisableBackfaceCulling] + LightDraws(model, lights) + [EnableBackfaceCulling])
  }

  /** The light pass as one list: 3D mode on, culling off, the draws, culling on, 3D
      mode off. */
  lemma LightPassLayout(cam: Camera3D, model: Model, lights: seq<PointLightEntity>)
    ensures LightPass(cam, model, lights)
      == [BeginMode3D(cam), DisableBackfaceCulling] + LightDraws(model, lights) + [EnableBackfaceCulling, EndMode3D]
  {
  }

  /** In the light pass every selected light is drawn exactly once, in order, at its
      position and scaled by its radius. */
  lemma LightPassDraws(cam: Camera3D, model: Model, lights: seq<PointLightEntity>)
    ensures var p := LightPass(cam, model, lights);
      && |p| == |lights| + 4
      && (forall k :: 0 <= k < |p| ==> (p[k].DrawModel? <==> 2 <= k < |p| - 2))
      && (forall k :: 0 <= k < |lights| ==> p[k + 2] == DrawModel(model, lights[k].position, lights[k].radius, White))
  {
    LightPassLayout(cam, model, lights);
    var p := LightPass(cam, model, lights);
    var d := LightDraws(model, lights);
    assert |p| == |d| + 4;
    forall k | 0 <= k < |p|
      ensures p[k].DrawModel? <==> 2 <= k < |p| - 2
    {
      if 2 <= k < |p| - 2 {
        assert p[k] == d[k - 2];
      }
    }
    forall k | 0 <= k < |lights|
      ensures p[k + 2] == DrawModel(model, lights[k].position, lights[k].radius, White)
    {
      assert p[k + 2] == d[k];
    }
  }

  /** The draws are exactly the calls between the one call disabling backface culling
      and the one call enabling it again, all inside the camera's 3D mode. */
  lemma LightPassCulling(cam: Camera3D, model: Model, lights: seq<PointLightEntity>)
    ensures var p := LightPass(cam, model, lights);
      && p[0] == BeginMode3D(cam) && p[|p| - 1] == EndMode3D
      && (forall k :: 0 <= k < |p| ==> (p[k] == DisableBackfaceCulling <==> k == 1))
      && (forall k :: 0 <= k < |p| ==> (p[k] == EnableBackfaceCulling <==> k == |p| - 2))
  {
    LightPassLayout(cam, model, lights);
  }

  /** scene.MainCamera.BeginCameraMode(), culling off, the light draws, culling on,
      EndCameraMode(). */
  method DrawPass(cam: CameraEntity, model: Model, lights: seq<PointLightEntity>, dev: Device)
    modifies dev
    ensures dev.calls == old(dev.calls) + LightPass(cam.camera, model, lights)
    ensures dev.nextHandle == old(dev.nextHandle) && dev.Env() == old(dev.Env())
  {
    cam.BeginCameraMode(dev);
    dev.Issue(DisableBackfaceCulling);
    DrawLights(model, lights, dev);
    dev.Issue(EnableBackfaceCulling);
    cam.EndCameraMode(dev);
    ghost var d := LightDraws(model, lights);
    assert dev.calls == old(dev.calls) + [BeginMode3D(cam.camera)] + [DisableBackfaceCulling] + d + [EnableBackfaceCulling] + [EndMode3D];
    assert [BeginMode3D(cam.camera)] + [DisableBackfaceCulling] + d + [EnableBackfaceCulling] + [EndMode3D]
      == LightPass(cam.camera, model, lights);
  }

  // ---------------------------------------------------------------- the stage

  /** The stage's render buffer: the lighting channel registered, nothing allocated. */
  method NewLightingBuffer() returns (b: RenderBuffer)
    ensures fresh(b) && b.Valid() && Dict.Keys(b.textures) == LightingChannels
    ensures b.textures == [("lighting", Registered(UncompressedR8G8B8))]
    ensures b.width == 0 && b.height == 0 && b.bufferId == 0
  {
    b := new RenderBuffer();
    b.RegisterTexture("lighting", UncompressedR8G8B8);
  }

  /** The calls building the light model from mesh `sphere`. */
  function LightModelCalls(shader: Shader, sphere: Mesh): seq<GpuCall> {
    [GenMesh(LightSphere, sphere), LoadModelFromMesh(sphere), SetMaterialShader(0, shader)]
  }

  /** The light model of the constructor: GenMeshSphere(1, 32, 32), LoadModelFromMesh,
      then SetMaterialShader(ref model, 0, ref shader). */
  method LoadLightModel(shader: Shader, dev: Device) returns (model: Model)
    modifies dev
    ensures var sphere := Mesh(old(dev.nextHandle) + 1, 0, false);
      && model == Model([sphere], [Material(shader, map[])])
      && dev.calls == old(dev.calls) + LightModelCalls(shader, sphere)
    ensures dev.state == old(dev.state) && dev.nextHandle == old(dev.nextHandle) + 1 && dev.Env() == old(dev.Env())
  {
    var mesh := dev.GenMesh(LightSphere);
    var m := dev.ModelFromMesh(mesh);
    dev.Issue(SetMaterialShader(0, shader));
    model := m.(materials := m.materials[0 := m.materials[0].(shader := shader)]);
  }

  /** The uploads Render makes before the lookups: viewPos and screenSize. */
  function Header(shader: Shader, viewPosLocation: int, screenSizeLocation: int, position: Vec3, width: int, height: int): seq<GpuCall> {
    [SetShaderValue(shader, viewPosLocation, UVec3(position)), SetShaderValue(shader, screenSizeLocation, UVec2(width as real, height as real))]
  }

  class PointLightingStage {
    const shader: Shader
    const viewPosLocation: int
    const screenSizeLocation: int
    const lightsCountLocation: int
    const lightLocations: seq<SlotLocations>
    const buffer: RenderBuffer
    /** _lightModel: a sphere whose material 0 uses the stage's shader. */
    var lightModel: Model

    /** The buffer holds exactly the lighting channel, there is one location entry per
        slot, and the light model has a material 0. */
    ghost predicate Valid()
      reads this, buffer
    {
      && buffer.Valid() && Dict.Keys(buffer.textures) == LightingChannels
      && |lightLocations| == MaxLights
      && |lightModel.materials| > 0
    }

    /** PointLightingStage(): loads the shader, looks up its locations and the slot table,
        registers the lighting channel, and builds the light sphere with the stage's
        shader. */
    constructor (dev: Device)
      modifies dev
      ensures fresh(buffer) && Valid()
      ensures shader == Shader(old(dev.nextHandle) + 1)
      ensures viewPosLocation == dev.shaderLocation(shader, "viewPos")
      ensures screenSizeLocation == dev.shaderLocation(shader, "screenSize")
      ensures lightsCountLocation == dev.shaderLocation(shader, "lightsCount")
      ensures lightLocations == SlotTable(shader, dev.shaderLocation, MaxLights)
      ensures buffer.textures == [("lighting", Registered(UncompressedR8G8B8))]
      ensures buffer.width == 0 && buffer.height == 0 && buffer.bufferId == 0
      ensures var sphere := Mesh(old(dev.nextHandle) + 2, 0, false);
        && lightModel == Model([sphere], [Material(shader, map[])])
        && dev.calls == old(dev.calls) + [LoadShader(Some(LightingVertex), LightingFragment, shader)] + LightModelCalls(shader, sphere)
      ensures dev.state == old(dev.state) && dev.nextHandle == old(dev.nextHandle) + 2 && dev.Env() == old(dev.Env())
    {
      var s := dev.LoadShader(Some(LightingVertex), LightingFragment);
      shader := s;
      viewPosLocation := dev.shaderLocation(s, "viewPos");
      screenSizeLocation := dev.shaderLocation(s, "screenSize");
      lightsCountLocation := dev.shaderLocation(s, "lightsCount");
      var table := BuildSlotTable(s, dev.shaderLocation);
      lightLocations := table;
      var b := NewLightingBuffer();
      buffer := b;
      var model := LoadLightModel(s, dev);
      lightModel := model;
    }

    /** One lookup and the SetMaterialTexture after it: the indexer throws when the name
        is missing, before anything changes. */
    method BindInput(values: Channels, i: nat, dev: Device) returns (thrown: bool)
      requires i < |LightingInputs| && |lightModel.materials| > 0
      modifies this`lightModel, dev
      ensures var t := Dict.Get(values, LightingInputs[i]);
        && thrown == t.None?
        && (thrown ==> lightModel == old(lightModel) && dev.calls == old(dev.calls))
        && (!thrown ==>
              && lightModel == WithMap(old(lightModel), InputMaps[i], t.value)
              && dev.calls == old(dev.calls) + [GpuCall.SetMaterialTexture(0, InputMaps[i], t.value)])
      ensures dev.state == old(dev.state) && dev.nextHandle == old(dev.nextHandle) && dev.Env() == old(dev.Env())
    {
      var t := Dict.Get(values, LightingInputs[i]);
      if t.None? {
        return true;
      }
      thrown := false;
      dev.Issue(GpuCall.SetMaterialTexture(0, InputMaps[i], t.value));
      lightModel := WithMap(lightModel, InputMaps[i], t.value);
    }

    /** Binds input i once inputs 0..i-1 are bound, from model `m0` and calls `c0`. */
    method BindNext(values: Channels, i: nat, ghost m0: Model, ghost c0: seq<GpuCall>, dev: Device) returns (thrown: bool)
      requires i < |LightingInputs| && |Lookups(values, LightingInputs, i)| == i
      requires Binds(values, i, m0, c0, lightModel, dev.calls)
      modifies this`lightModel, dev
      ensures thrown == (|Lookups(values, LightingInputs, i + 1)| < i + 1)
      ensures Binds(values, i + 1, m0, c0, lightModel, dev.calls)
      ensures dev.state == old(dev.state) && dev.nextHandle == old(dev.nextHandle) && dev.Env() == old(dev.Env())
    {
      ghost var m1, c1 := lightModel, dev.calls;
      thrown := BindInput(values, i, dev);
      BindStep(values, i, m0, c0, m1, c1, lightModel, dev.calls);
    }

    /** The four lookups with their SetMaterialTexture calls, in order; the first missing
        name throws, after the maps before it are bound. */
    method BindInputs(values: Channels, dev: Device) returns (thrown: bool)
      requires |lightModel.materials| > 0
      modifies this`lightModel, dev
      ensures var ts := Lookups(values, LightingInputs, |LightingInputs|);
        && thrown == (|ts| < |LightingInputs|)
        && lightModel == WithMaps(old(lightModel), ts)
        && dev.calls == old(dev.calls) + BindCalls(ts)
      ensures dev.state == old(dev.state) && dev.nextHandle == old(dev.nextHandle) && dev.Env() == old(dev.Env())
    {
      ghost var m0, c0 := lightModel, dev.calls;
      assert BindCalls([]) == [] && c0 + [] == c0;
      ghost var n := 1;
      thrown := BindNext(values, 0, m0, c0, dev);
      if !thrown {
        n := 2;
        thrown := BindNext(values, 1, m0, c0, dev);
        if !thrown {
          n := 3;
          thrown := BindNext(values, 2, m0, c0, dev);
          if !thrown {
            n := 4;
            thrown := BindNext(values, 3, m0, c0, dev);
          }
        }
      }
      // `n` lookups ran; all four, or up to the one that threw.
      Finish(values, n, m0, c0, lightModel, dev.calls);
    }

    /** The drawing part of Render: inside the buffer's bracket and the camera's, each
        selected light's sphere with backface culling off. */
    method Pass(cam: CameraEntity, lights: seq<PointLightEntity>, dev: Device)
      requires Valid()
      modifies buffer, dev
      ensures Valid()
      ensures buffer.width == dev.screenWidth && buffer.height == dev.screenHeight
      ensures dev.calls == old(dev.calls)
        + BeginCalls(old(buffer.textures), (old(buffer.width), old(buffer.height)), old(buffer.bufferId),
                     (dev.screenWidth, dev.screenHeight), old(dev.nextHandle), dev.framebufferComplete)
        + LightPass(cam.camera, lightModel, lights)
        + EndCalls
      ensures dev.Env() == old(dev.Env())
    {
      buffer.BeginBufferMode(dev);
      DrawPass(cam, lightModel, lights, dev);
      buffer.EndBufferMode(dev);
    }

    /** The uploads after the lookups: the selected lights into their slots, then their
        number as lightsCount. */
    method Upload(pointLights: seq<PointLightEntity>, dev: Device) returns (lights: seq<PointLightEntity>)
      requires Valid()
      modifies dev
      ensures lights == Selected(pointLights)
      ensures dev.calls == old(dev.calls) + UploadCalls(shader, lightLocations, lights)
        + [SetShaderValue(shader, lightsCountLocation, UInt(|lights|))]
      ensures dev.state == old(dev.state) && dev.nextHandle == old(dev.nextHandle) && dev.Env() == old(dev.Env())
    {
      lights := UploadLights(shader, lightLocations, pointLights, dev);
      dev.Issue(SetShaderValue(shader, lightsCountLocation, UInt(|lights|)));
    }

    /** Render(values): with no main scene, an empty map and no drawing. Otherwise
        viewPos and screenSize are uploaded and the four geometry channels are bound to
        the light model, a missing one throwing; then the first MaxLights point lights
        are uploaded and drawn into the buffer, and the output is its lighting channel. */
    method Render(values: Channels, holder: SceneHolder, dev: Device) returns (out: Channels, thrown: bool)
      requires Valid() && holder.Valid()
      modifies this`lightModel, buffer, dev
      ensures Valid() && holder.Valid()
      ensures holder.main == null ==>
        !thrown && out == [] && dev.calls == old(dev.calls) && unchanged(buffer) && lightModel == old(lightModel)
      ensures holder.main != null ==>
        var ts := Lookups(values, LightingInputs, |LightingInputs|);
        var lights := Selected(holder.main.pointLights);
        var cam := holder.main.mainCamera.camera;
        && thrown == (|ts| < |LightingInputs|)
        && lightModel == WithMaps(old(lightModel), ts)
        && (thrown ==>
              && out == [] && unchanged(buffer)
              && dev.calls == old(dev.calls)
                + Header(shader, viewPosLocation, screenSizeLocation, cam.position, dev.screenWidth, dev.screenHeight)
                + BindCalls(ts))
        && (!thrown ==>
              && out == buffer.textures && Dict.Keys(out) == LightingChannels
              && buffer.width == dev.screenWidth && buffer.height == dev.screenHeight
              && dev.calls == old(dev.calls)
                + Header(shader, viewPosLocation, screenSizeLocation, cam.position, dev.screenWidth, dev.screenHeight)
                + BindCalls(ts)
                + UploadCalls(shader, lightLocations, lights)
                + [SetShaderValue(shader, lightsCountLocation, UInt(|lights|))]
                + BeginCalls(old(buffer.textures), (old(buffer.width), old(buffer.height)), old(buffer.bufferId),
                             (dev.screenWidth, dev.screenHeight), old(dev.nextHandle), dev.framebufferComplete)
                + LightPass(cam, lightModel, lights)
                + EndCalls)
      ensures dev.Env() == old(dev.Env())
    {
      if holder.main == null {
        return [], false;
      }
      out, thrown := Lit(values, holder.main, dev);
    }

    /** Render with a main scene. */
    method Lit(values: Channels, scene: Scene, dev: Device) returns (out: Channels, thrown: bool)
      requires Valid() && scene.mainCamera != null
      modifies this`lightModel, buffer, dev
      ensures Valid()
      ensures var ts := Lookups(values, LightingInputs, |LightingInputs|);
        var lights := Selected(scene.pointLights);
        var cam := scene.mainCamera.camera;
        && thrown == (|ts| < |LightingInputs|)
        && lightModel == WithMaps(old(lightModel), ts)
        && (thrown ==>
              && out == [] && unchanged(buffer)
              && dev.calls == old(dev.calls)
                + Header(shader, viewPosLocation, screenSizeLocation, cam.position, dev.screenWidth, dev.screenHeight)
                + BindCalls(ts))
        && (!thrown ==>
              && out == buffer.textures && Dict.Keys(out) == LightingChannels
              && buffer.width == dev.screenWidth && buffer.height == dev.screenHeight
              && dev.calls == old(dev.calls)
                + Header(shader, viewPosLocation, screenSizeLocation, cam.position, dev.screenWidth, dev.screenHeight)
                + BindCalls(ts)
                + UploadCalls(shader, lightLocations, lights)
                + [SetShaderValue(shader, lightsCountLocation, UInt(|lights|))]
                + BeginCalls(old(buffer.textures), (old(buffer.width), old(buffer.height)), old(buffer.bufferId),
                             (dev.screenWidth, dev.screenHeight), old(dev.nextHandle), dev.framebufferComplete)
                + LightPass(cam, lightModel, lights)
                + EndCalls)
      ensures dev.Env() == old(dev.Env())
    {
      var cam := scene.mainCamera;
      thrown := Prepare(values, cam.camera, dev);
      if thrown {
        return [], true;
      }
      out := Light(scene.pointLights, cam, dev);
    }

    /** The uploads and lookups of Render before the lights. */
    method Prepare(values: Channels, cam: Camera3D, dev: Device) returns (thrown: bool)
      requires Valid()
      modifies this`lightModel, dev
      ensures Valid()
      ensures var ts := Lookups(values, LightingInputs, |LightingInputs|);
        && thrown == (|ts| < |LightingInputs|)
        && lightModel == WithMaps(old(lightModel), ts)
        && dev.calls == old(dev.calls)
          + Header(shader, viewPosLocation, screenSizeLocation, cam.position, dev.screenWidth, dev.screenHeight)
          + BindCalls(ts)
      ensures dev.state == old(dev.state) && dev.nextHandle == old(dev.nextHandle) && dev.Env() == old(dev.Env())
    {
      dev.Issue(SetShaderValue(shader, viewPosLocation, UVec3(cam.position)));
      dev.Issue(SetShaderValue(shader, screenSizeLocation, UVec2(dev.screenWidth as real, dev.screenHeight as real)));
      thrown := BindInputs(values, dev);
    }

    /** The part of Render after the lookups: the lights uploaded and drawn, and the
        buffer's channel as the output. */
    method Light(pointLights: seq<PointLightEntity>, cam: CameraEntity, dev: Device) returns (out: Channels)
      requires Valid()
      modifies buffer, dev
      ensures Valid()
      ensures var lights := Selected(pointLights);
        && out == buffer.textures && Dict.Keys(out) == LightingChannels
        && buffer.width == dev.screenWidth && buffer.height == dev.screenHeight
        && dev.calls == old(dev.calls)
          + UploadCalls(shader, lightLocations, lights)
          + [SetShaderValue(shader, lightsCountLocation, UInt(|lights|))]
          + BeginCalls(old(buffer.textures), (old(buffer.width), old(buffer.height)), old(buffer.bufferId),
                       (dev.screenWidth, dev.screenHeight), old(dev.nextHandle), dev.framebufferComplete)
          + LightPass(cam.camera, lightModel, lights)
          + EndCalls
      ensures dev.Env() == old(dev.Env())
    {
      var lights := Upload(pointLights, dev);
      Pass(cam, lights, dev);
      assert Dict.Valid(buffer.textures) by {
        assert Dict.Keys(buffer.textures) == ["lighting"];
      }
      var textures := buffer.Textures();
      out := textures.value;
    }
  }
}
