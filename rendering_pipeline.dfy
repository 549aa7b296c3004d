/** Core/Rendering/RenderingPipeline.cs: the ordered list of rendering stages run once
    per frame. Each stage receives every channel the earlier stages produced and its
    own outputs are added, one Dictionary.Add at a time, to the running map. */
module RenderingPipelines {
  import opened Common
  import Dict
  import opened Raylib
  import opened RenderBuffers
  import opened StageCommon
  import opened SceneCreation
  import Configuration
  import DebugConsole
  import GeometryStages
  import PointLightingStages
  import FinalStages
  import DebugStages
  import ForwardStages

  /** IRenderingStage: the five implementations. */
  datatype Stage =
    | Geometry(geometry: GeometryStages.GeometryStage)
    | PointLighting(lighting: PointLightingStages.PointLightingStage)
    | Final(composite: FinalStages.FinalStage)
    | Debug(overlay: DebugStages.DebugStage)
    | Forward(forward: ForwardStages.ForwardStage)

  /** Which implementation a stage is; all the channel flow depends on. */
  datatype StageKind = GeometryKind | PointLightingKind | FinalKind | DebugKind | ForwardKind

  function KindOf(s: Stage): StageKind {
    match s
    case Geometry(_) => GeometryKind
    case PointLighting(_) => PointLightingKind
    case Final(_) => FinalKind
    case Debug(_) => DebugKind
    case Forward(_) => ForwardKind
  }

  function Kinds(stages: seq<Stage>): (r: seq<StageKind>)
    ensures |r| == |stages| && forall i :: 0 <= i < |stages| ==> r[i] == KindOf(stages[i])
  {
    seq(|stages|, i requires 0 <= i < |stages| => KindOf(stages[i]))
  }

  /** IRenderingStage.Shader. */
  function ShaderOf(s: Stage): Shader {
    match s
    case Geometry(g) => g.shader
    case PointLighting(p) => p.shader
    case Final(f) => f.shader
    case Debug(d) => d.shader
    case Forward(w) => w.shader
  }

  /** The channels a stage looks up in its input, in order; a missing one throws. The
      scene stages read nothing when there is no main scene, and the debug stage reads
      only when debug:rendering is set. */
  function Reads(k: StageKind, hasScene: bool, debugRendering: bool): seq<string> {
    match k
    case GeometryKind => []
    case PointLightingKind => if hasScene then PointLightingStages.LightingInputs else []
    case FinalKind => FinalStages.FinalInputs
    case DebugKind => if debugRendering then DebugStages.DebugInputs else []
    case ForwardKind => []
  }

  /** The channels a stage hands on, in order. */
  function Outputs(k: StageKind, hasScene: bool): seq<string> {
    match k
    case GeometryKind => if hasScene then GeometryStages.GeometryChannels else []
    case PointLightingKind => if hasScene then PointLightingStages.LightingChannels else []
    case FinalKind => []
    case DebugKind => []
    case ForwardKind => []
  }

  /** Every name is among the keys. */
  predicate Present(names: seq<string>, keys: seq<string>) {
    forall i :: 0 <= i < |names| ==> names[i] in keys
  }

  /** One stage on the keys so far: it throws on a missing input, Dictionary.Add throws
      on an output already present, and otherwise the outputs follow the keys. */
  function StepKeys(k: StageKind, keys: seq<string>, hasScene: bool, debugRendering: bool): Option<seq<string>> {
    if !Present(Reads(k, hasScene, debugRendering), keys) then None
    else if !NoDup(keys + Outputs(k, hasScene)) then None
    else Some(keys + Outputs(k, hasScene))
  }

  /** The keys of the channel map after the stages of the given kinds, starting from the
      empty map; None when a stage or an Add throws. */
  function Flow(ks: seq<StageKind>, hasScene: bool, debugRendering: bool): Option<seq<string>>
    decreases |ks|
  {
    if ks == [] then Some([])
    else match Flow(ks[..|ks| - 1], hasScene, debugRendering)
      case None => None
      case Some(keys) => StepKeys(ks[|ks| - 1], keys, hasScene, debugRendering)
  }

  /** Everything the stages of the given kinds hand on, in order. */
  function Produced(ks: seq<StageKind>, hasScene: bool): seq<string>
    decreases |ks|
  {
    if ks == [] then [] else Produced(ks[..|ks| - 1], hasScene) + Outputs(ks[|ks| - 1], hasScene)
  }

  /** A frame goes through exactly when every stage reads only channels some earlier
      stage produced and no channel is produced twice; the keys are then all the
      outputs, in stage order. */
  lemma {:induction false} FlowSpec(ks: seq<StageKind>, hasScene: bool, debugRendering: bool)
    ensures Flow(ks, hasScene, debugRendering).Some? <==>
      && (forall i :: 0 <= i < |ks| ==> Present(Reads(ks[i], hasScene, debugRendering), Produced(ks[..i], hasScene)))
      && NoDup(Produced(ks, hasScene))
    ensures Flow(ks, hasScene, debugRendering).Some? ==> Flow(ks, hasScene, debugRendering).value == Produced(ks, hasScene)
    decreases |ks|
  {
    if ks != [] {
      var n := |ks| - 1;
      var init := ks[..n];
      FlowSpec(init, hasScene, debugRendering);
      assert ks[..n] == init;
      forall i | 0 <= i < n
        ensures ks[i] == init[i] && ks[..i] == init[..i]
      {
      }
      var before := Produced(init, hasScene);
      assert Produced(ks, hasScene) == before + Outputs(ks[n], hasScene);
      if NoDup(Produced(ks, hasScene)) {
        NoDupPrefix(before, Produced(ks, hasScene));
      }
    }
  }

  /** The flow after one more stage. */
  lemma FlowSnoc(ks: seq<StageKind>, n: nat, hasScene: bool, debugRendering: bool)
    requires n < |ks|
    ensures Flow(ks[..n + 1], hasScene, debugRendering) ==
      match Flow(ks[..n], hasScene, debugRendering)
      case None => None
      case Some(keys) => StepKeys(ks[n], keys, hasScene, debugRendering)
  {
    assert ks[..n + 1][..n] == ks[..n];
  }

  /** Once a stage has thrown, the frame has thrown. */
  lemma {:induction false} FlowStops(ks: seq<StageKind>, n: nat, hasScene: bool, debugRendering: bool)
    requires n <= |ks| && Flow(ks[..n], hasScene, debugRendering).None?
    ensures Flow(ks, hasScene, debugRendering).None?
    decreases |ks| - n
  {
    if n < |ks| {
      FlowSnoc(ks, n, hasScene, debugRendering);
      FlowStops(ks, n + 1, hasScene, debugRendering);
    } else {
      assert ks[..n] == ks;
    }
  }

  /** The order Engine builds: geometry, point lighting, composite, overlays. */
  const EngineOrder: seq<StageKind> := [GeometryKind, PointLightingKind, FinalKind, DebugKind]

  /** The channels of a frame with a scene: the geometry channels, then lighting. */
  const SceneChannels: seq<string> := GeometryStages.GeometryChannels + PointLightingStages.LightingChannels

  /** The geometry stage starts the map with its four channels. */
  lemma GeometryStep(debugRendering: bool)
    ensures StepKeys(GeometryKind, [], true, debugRendering) == Some(GeometryStages.GeometryChannels)
  {
    GeometryStages.GeometryChannelsDistinct();
    assert [] + GeometryStages.GeometryChannels == GeometryStages.GeometryChannels;
  }

  /** The lighting stage finds its four inputs there and adds lighting. */
  lemma LightingStep(debugRendering: bool)
    ensures StepKeys(PointLightingKind, GeometryStages.GeometryChannels, true, debugRendering) == Some(SceneChannels)
  {
    var geometry := GeometryStages.GeometryChannels;
    GeometryStages.GeometryChannelsDistinct();
    assert PointLightingStages.LightingInputs == geometry;
    forall i | 0 <= i < |geometry| ensures geometry[i] != "lighting" {
      assert |geometry[i]| != |"lighting"| || geometry[i][0] != 'l';
    }
    NoDupSnoc(geometry, "lighting");
  }

  /** The composite and overlay stages find what they read and add nothing. */
  lemma ReadersStep(k: StageKind, debugRendering: bool)
    requires k == FinalKind || k == DebugKind
    ensures StepKeys(k, SceneChannels, true, debugRendering) == Some(SceneChannels)
  {
    LightingStep(debugRendering);
    assert SceneChannels + [] == SceneChannels;
    assert FinalStages.FinalInputs == [SceneChannels[0], SceneChannels[4]];
    assert DebugStages.DebugInputs == SceneChannels;
  }

  /** The five channels of a frame with a scene, by name. */
  lemma SceneChannelsAre()
    ensures SceneChannels == ["diffuse", "normal", "specular", "depth", "lighting"]
  {
  }

  /** With a main scene the engine's order never misses a lookup and never adds a
      channel twice: the map grows to the four geometry channels, then gains lighting,
      and the last two stages leave it as it is. */
  lemma EngineFlow(ks: seq<StageKind>, debugRendering: bool)
    requires |ks| == 4 && ks[0] == GeometryKind && ks[1] == PointLightingKind && ks[2] == FinalKind && ks[3] == DebugKind
    ensures Flow(ks[..1], true, debugRendering) == Some(GeometryStages.GeometryChannels)
    ensures Flow(ks[..2], true, debugRendering) == Some(SceneChannels)
    ensures Flow(ks[..3], true, debugRendering) == Some(SceneChannels)
    ensures Flow(ks, true, debugRendering) == Some(SceneChannels)
  {
    GeometryThenLighting(ks, debugRendering);
    assert Flow(ks[..3], true, debugRendering) == Some(SceneChannels) by {
      ReadersStep(FinalKind, debugRendering);
      FlowAt(ks, 2, SceneChannels, SceneChannels, true, debugRendering);
    }
    assert Flow(ks[..4], true, debugRendering) == Some(SceneChannels) by {
      ReadersStep(DebugKind, debugRendering);
      FlowAt(ks, 3, SceneChannels, SceneChannels, true, debugRendering);
    }
    assert ks[..4] == ks;
  }

  /** Any order that starts with geometry and then point lighting has, with a main
      scene, the four geometry channels after the first stage and all five after the
      second. */
  lemma GeometryThenLighting(ks: seq<StageKind>, debugRendering: bool)
    requires |ks| >= 2 && ks[0] == GeometryKind && ks[1] == PointLightingKind
    ensures Flow(ks[..1], true, debugRendering) == Some(GeometryStages.GeometryChannels)
    ensures Flow(ks[..2], true, debugRendering) == Some(SceneChannels)
  {
    assert Flow(ks[..1], true, debugRendering) == Some(GeometryStages.GeometryChannels) by {
      assert ks[..0] == [];
      GeometryStep(debugRendering);
      FlowAt(ks, 0, [], GeometryStages.GeometryChannels, true, debugRendering);
    }
    assert Flow(ks[..2], true, debugRendering) == Some(SceneChannels) by {
      LightingStep(debugRendering);
      FlowAt(ks, 1, GeometryStages.GeometryChannels, SceneChannels, true, debugRendering);
    }
  }

  /** The engine's own list. */
  lemma EngineOrderFlow(debugRendering: bool)
    ensures Flow(EngineOrder, true, debugRendering) == Some(SceneChannels)
  {
    EngineFlow(EngineOrder, debugRendering);
  }

  /** One more stage that goes through. */
  lemma FlowAt(ks: seq<StageKind>, n: nat, keys: seq<string>, next: seq<string>, hasScene: bool, debugRendering: bool)
    requires n < |ks| && Flow(ks[..n], hasScene, debugRendering) == Some(keys)
    requires StepKeys(ks[n], keys, hasScene, debugRendering) == Some(next)
    ensures Flow(ks[..n + 1], hasScene, debugRendering) == Some(next)
  {
    FlowSnoc(ks, n, hasScene, debugRendering);
  }

  /** Without a main scene the scene stages hand on nothing, so in any order that
      starts with geometry, point lighting and the composite stage, the composite stage
      finds no diffuse channel and the frame throws; this is why the engine renders
      only while a scene is loaded. */
  lemma NoSceneThrows(ks: seq<StageKind>, debugRendering: bool)
    requires |ks| >= 3 && ks[0] == GeometryKind && ks[1] == PointLightingKind && ks[2] == FinalKind
    ensures Flow(ks[..2], false, debugRendering) == Some([])
    ensures Flow(ks, false, debugRendering).None?
  {
    assert Flow(ks[..1], false, debugRendering) == Some([]) by {
      var none: seq<string> := [];
      assert ks[..0] == [] && none + none == none;
      FlowAt(ks, 0, [], [], false, debugRendering);
    }
    assert Flow(ks[..2], false, debugRendering) == Some([]) by {
      var none: seq<string> := [];
      assert none + none == none;
      FlowAt(ks, 1, [], [], false, debugRendering);
    }
    assert Flow(ks[..3], false, debugRendering).None? by {
      FlowSnoc(ks, 2, false, debugRendering);
      assert FinalStages.FinalInputs[0] !in [];
    }
    FlowStops(ks, 3, false, debugRendering);
  }

  /** The engine's own list without a main scene. */
  lemma EngineOrderNoScene(debugRendering: bool)
    ensures Flow(EngineOrder, false, debugRendering).None?
  {
    NoSceneThrows(EngineOrder, debugRendering);
  }

  /** Lighting before geometry: with a main scene, an order that starts with the
      lighting stage misses its inputs and the frame throws. */
  lemma LightingFirstThrows(ks: seq<StageKind>, debugRendering: bool)
    requires |ks| >= 1 && ks[0] == PointLightingKind
    ensures Flow(ks, true, debugRendering).None?
  {
    assert Flow(ks[..1], true, debugRendering).None? by {
      assert ks[..0] == [];
      FlowSnoc(ks, 0, true, debugRendering);
      assert PointLightingStages.LightingInputs[0] !in [];
    }
    FlowStops(ks, 1, true, debugRendering);
  }

  /** With a main scene, a second geometry stage right after the first adds diffuse
      again, and Dictionary.Add throws. */
  lemma GeometryTwiceThrows(ks: seq<StageKind>, debugRendering: bool)
    requires |ks| >= 2 && ks[0] == GeometryKind && ks[1] == GeometryKind
    ensures Flow(ks, true, debugRendering).None?
  {
    var geometry := GeometryStages.GeometryChannels;
    assert Flow(ks[..1], true, debugRendering) == Some(geometry) by {
      assert ks[..0] == [];
      GeometryStep(debugRendering);
      FlowAt(ks, 0, [], geometry, true, debugRendering);
    }
    assert Flow(ks[..2], true, debugRendering).None? by {
      FlowSnoc(ks, 1, true, debugRendering);
      assert (geometry + geometry)[0] == (geometry + geometry)[4];
    }
    FlowStops(ks, 2, true, debugRendering);
  }

  /** foreach (name, value) in outputs: values.Add(name, value). It throws at the first
      name already present, which happens exactly when the two maps together repeat a
      key; otherwise the outputs are appended in their order. */
  method Merge(values: Channels, outputs: Channels) returns (merged: Channels, thrown: bool)
    requires Dict.Valid(values)
    ensures thrown <==> !Dict.Valid(values + outputs)
    ensures !thrown ==> merged == values + outputs
  {
    merged := values;
    Dict.AddAllSpec(values, outputs);
    for i := 0 to |outputs|
      invariant Dict.AddAll(values, outputs[..i]) == Some(merged)
    {
      assert outputs[..i + 1][..i] == outputs[..i];
      var added := Dict.Add(merged, outputs[i].0, outputs[i].1);
      if added.None? {
        Dict.AddAllSpec(values, outputs[..i + 1]);
        PrefixValid(values + outputs[..i + 1], values + outputs);
        return merged, true;
      }
      merged := added.value;
    }
    assert outputs[..|outputs|] == outputs;
    thrown := false;
  }

  /** Entries that follow cannot undo a repeated key: a dictionary without repetitions
      has none in any prefix. */
  lemma PrefixValid(d: Channels, e: Channels)
    requires d <= e
    ensures Dict.Valid(e) ==> Dict.Valid(d)
  {
    assert Dict.Keys(d) <= Dict.Keys(e);
    if Dict.Valid(e) {
      NoDupPrefix(Dict.Keys(d), Dict.Keys(e));
    }
  }

  /** The objects a stage holds. */
  function Footprint(s: Stage): set<object> {
    match s
    case Geometry(g) => {g, g.buffer}
    case PointLighting(p) => {p, p.buffer}
    case Final(f) => {f}
    case Debug(d) => {d}
    case Forward(w) => {w}
  }

  /** The render buffers a stage renders into. */
  function Buffers(s: Stage): set<RenderBuffer> {
    match s
    case Geometry(g) => {g.buffer}
    case PointLighting(p) => {p.buffer}
    case _ => {}
  }

  /** The stages whose light model is rebound each frame. */
  function Lights(s: Stage): set<PointLightingStages.PointLightingStage> {
    match s
    case PointLighting(p) => {p}
    case _ => {}
  }

  lemma FootprintCovers(s: Stage, dev: Device)
    ensures Buffers(s) <= Footprint(s) && Lights(s) <= Footprint(s) && dev !in Footprint(s)
  {
  }

  ghost predicate StageValid(s: Stage)
    reads Footprint(s)
  {
    match s
    case Geometry(g) => g.Valid()
    case PointLighting(p) => p.Valid()
    case _ => true
  }

  /** stage.Render(values): dispatch on the implementation. It throws exactly when a
      channel it reads is missing, and otherwise hands on the channels of its kind. */
  method RenderStage(s: Stage, values: Channels, holder: SceneHolder, cfg: Configuration.Config,
                     consoles: DebugConsole.ConsoleHolder, caption: string, version: Option<string>, dev: Device)
    returns (out: Channels, thrown: bool)
    requires StageValid(s) && holder.Valid()
    modifies Buffers(s), Lights(s), dev
    ensures StageValid(s) && holder.Valid()
    ensures thrown <==> !Present(Reads(KindOf(s), holder.main != null, cfg.GetBool("debug:rendering")), Dict.Keys(values))
    ensures !thrown ==> Dict.Keys(out) == Outputs(KindOf(s), holder.main != null)
  {
    match s
    case Geometry(g) =>
      out := g.Render(values, holder, dev);
      thrown := false;
    case PointLighting(p) =>
      out, thrown := RenderLighting(p, values, holder, dev);
    case Final(f) =>
      out, thrown := RenderFinal(f, values, dev);
    case Debug(d) =>
      out, thrown := RenderDebug(d, values, cfg, consoles, caption, version, dev);
    case Forward(w) =>
      out := w.Render(values, holder, dev);
      thrown := false;
  }

  /** The lighting stage throws exactly when, with a main scene, one of its four inputs
      is missing. */
  method RenderLighting(p: PointLightingStages.PointLightingStage, values: Channels, holder: SceneHolder, dev: Device)
    returns (out: Channels, thrown: bool)
    requires p.Valid() && holder.Valid()
    modifies p, p.buffer, dev
    ensures p.Valid() && holder.Valid()
    ensures thrown <==> holder.main != null && !Present(PointLightingStages.LightingInputs, Dict.Keys(values))
    ensures !thrown ==> Dict.Keys(out) == if holder.main != null then PointLightingStages.LightingChannels else []
  {
    out, thrown := p.Render(values, holder, dev);
    LookupsSpec(values, PointLightingStages.LightingInputs, |PointLightingStages.LightingInputs|);
  }

  /** The composite stage throws exactly when diffuse or lighting is missing. */
  method RenderFinal(f: FinalStages.FinalStage, values: Channels, dev: Device) returns (out: Channels, thrown: bool)
    modifies dev
    ensures out == []
    ensures thrown <==> !Present(FinalStages.FinalInputs, Dict.Keys(values))
  {
    out, thrown := f.Render(values, dev);
    assert FinalStages.FinalInputs == ["diffuse", "lighting"];
  }

  /** The overlay stage throws exactly when debug:rendering is set and a channel it
      shows is missing. */
  method RenderDebug(d: DebugStages.DebugStage, values: Channels, cfg: Configuration.Config,
                     consoles: DebugConsole.ConsoleHolder, caption: string, version: Option<string>, dev: Device)
    returns (out: Channels, thrown: bool)
    modifies dev
    ensures out == []
    ensures thrown <==> cfg.GetBool("debug:rendering") && !Present(DebugStages.DebugInputs, Dict.Keys(values))
  {
    out, thrown := d.Render(values, cfg, consoles, caption, version, dev);
    LookupsSpec(values, DebugStages.DebugInputs, |DebugStages.DebugInputs|);
  }

  class RenderingPipeline {
    /** _stages. */
    const stages: seq<Stage>
    /** DefaultShader: the shader of the first stage. */
    const defaultShader: Shader
    /** Every object the stages hold, the buffers among them and the lighting stages. */
    ghost const objects: set<object>
    ghost const buffers: set<RenderBuffer>
    ghost const lights: set<PointLightingStages.PointLightingStage>

    /** Every stage is ready to render and no two stages share an object. */
    ghost predicate Valid()
      reads objects
    {
      && (forall i :: 0 <= i < |stages| ==>
            Footprint(stages[i]) <= objects && Buffers(stages[i]) <= buffers && Lights(stages[i]) <= lights)
      && (forall i :: 0 <= i < |stages| ==> StageValid(stages[i]))
      && (forall i, j :: 0 <= i < j < |stages| ==> Footprint(stages[i]) !! Footprint(stages[j]))
    }

    /** RenderingPipeline(stages): reading _stages[0] needs a first stage. */
    constructor (stages: seq<Stage>)
      requires |stages| > 0
      ensures this.stages == stages && defaultShader == ShaderOf(stages[0])
      ensures forall i :: 0 <= i < |stages| ==>
        Footprint(stages[i]) <= objects && Buffers(stages[i]) <= buffers && Lights(stages[i]) <= lights
    {
      this.stages := stages;
      defaultShader := ShaderOf(stages[0]);
      objects := set i, o | 0 <= i < |stages| && o in Footprint(stages[i]) :: o;
      buffers := set i, b | 0 <= i < |stages| && b in Buffers(stages[i]) :: b;
      lights := set i, p | 0 <= i < |stages| && p in Lights(stages[i]) :: p;
    }

    /** Render(): starting from an empty map, every stage in order, its outputs added to
        the map. The frame throws exactly when the channel flow of the stage kinds does,
        and otherwise the map holds the keys that flow computes. */
    method Render(holder: SceneHolder, cfg: Configuration.Config, consoles: DebugConsole.ConsoleHolder,
                  caption: string, version: Option<string>, dev: Device) returns (values: Channels, thrown: bool)
      requires Valid() && holder.Valid()
      modifies buffers, lights, dev
      ensures Valid() && holder.Valid()
      ensures var flow := Flow(Kinds(stages), holder.main != null, cfg.GetBool("debug:rendering"));
        && (thrown <==> flow.None?)
        && (!thrown ==> Dict.Keys(values) == flow.value)
    {
      values := [];
      assert Kinds(stages)[..0] == [];
      var i := 0;
      while i < |stages|
        invariant i <= |stages| && Progress(i, values, holder, cfg)
      {
        var failed;
        values, failed := Advance(i, values, holder, cfg, consoles, caption, version, dev);
        if failed {
          FlowStops(Kinds(stages), i + 1, holder.main != null, cfg.GetBool("debug:rendering"));
          return values, true;
        }
        i := i + 1;
      }
      assert Kinds(stages)[..|stages|] == Kinds(stages);
      thrown := false;
    }

    /** The loop of Render after i stages: everything still valid, and the map holds the
        keys the flow of the first i stage kinds computes. */
    ghost predicate Progress(i: nat, values: Channels, holder: SceneHolder, cfg: Configuration.Config)
      reads objects, holder, holder.main, if holder.main == null then {} else holder.main.worlds, cfg
    {
      && i <= |stages| && Valid() && holder.Valid() && Dict.Valid(values)
      && Flow(Kinds(stages)[..i], holder.main != null, cfg.GetBool("debug:rendering")) == Some(Dict.Keys(values))
    }

    /** One turn of the loop: stage i, then its outputs added to the map. */
    method Advance(i: nat, values: Channels, holder: SceneHolder, cfg: Configuration.Config,
                   consoles: DebugConsole.ConsoleHolder, caption: string, version: Option<string>, dev: Device)
      returns (next: Channels, thrown: bool)
      requires i < |stages| && Progress(i, values, holder, cfg)
      modifies Buffers(stages[i]), Lights(stages[i]), dev
      ensures Valid() && holder.Valid()
      ensures thrown ==> Flow(Kinds(stages)[..i + 1], holder.main != null, cfg.GetBool("debug:rendering")).None?
      ensures !thrown ==> Progress(i + 1, next, holder, cfg)
    {
      ghost var hasScene := holder.main != null;
      ghost var debugRendering := cfg.GetBool("debug:rendering");
      ghost var k := KindOf(stages[i]);
      var out, failed := RenderAt(i, values, holder, cfg, consoles, caption, version, dev);
      FlowSnoc(Kinds(stages), i, hasScene, debugRendering);
      assert Flow(Kinds(stages)[..i + 1], hasScene, debugRendering) == StepKeys(k, Dict.Keys(values), hasScene, debugRendering);
      if failed {
        return values, true;
      }
      var clash;
      next, clash := Merge(values, out);
      Dict.KeysConcat(values, out);
      return next, clash;
    }

    /** Stage i on the map so far; the other stages are left as they were. */
    method RenderAt(i: nat, values: Channels, holder: SceneHolder, cfg: Configuration.Config,
                    consoles: DebugConsole.ConsoleHolder, caption: string, version: Option<string>, dev: Device)
      returns (out: Channels, thrown: bool)
      requires i < |stages| && Valid() && holder.Valid()
      modifies Buffers(stages[i]), Lights(stages[i]), dev
      ensures Valid() && holder.Valid()
      ensures thrown <==> !Present(Reads(KindOf(stages[i]), holder.main != null, cfg.GetBool("debug:rendering")), Dict.Keys(values))
      ensures !thrown ==> Dict.Keys(out) == Outputs(KindOf(stages[i]), holder.main != null)
    {
      out, thrown := RenderStage(stages[i], values, holder, cfg, consoles, caption, version, dev);
      FootprintCovers(stages[i], dev);
      forall j | 0 <= j < |stages| && j != i
        ensures Footprint(stages[j]) !! Footprint(stages[i])
      {
      }
    }
  }

  /** RenderingPipeline.Instance. */
  class PipelineHolder {
    var instance: RenderingPipeline?

    constructor ()
      ensures instance == null
    {
      instance := null;
    }

    /** Init(stages): a second call logs a warning and keeps the first pipeline; an empty
        list throws when the constructor reads the first stage, and no pipeline is set. */
    method Init(stages: seq<Stage>, dev: Device) returns (thrown: bool)
      modifies this, dev
      ensures old(instance) != null ==>
        && !thrown && instance == old(instance)
        && dev.calls == old(dev.calls) + [TraceLog(LogWarning, AlreadyCreated)]
      ensures old(instance) == null && stages == [] ==>
        thrown && instance == null && dev.calls == old(dev.calls)
      ensures old(instance) == null && stages != [] ==>
        && !thrown && instance != null && fresh(instance)
        && instance.stages == stages && instance.defaultShader == ShaderOf(stages[0])
        && dev.calls == old(dev.calls)
      ensures dev.state == old(dev.state) && dev.nextHandle == old(dev.nextHandle) && dev.Env() == old(dev.Env())
    {
      thrown := false;
      if instance != null {
        dev.Log(LogWarning, AlreadyCreated);
        return;
      }
      if stages == [] {
        return true;
      }
      instance := new RenderingPipeline(stages);
    }
  }

  const AlreadyCreated := "[Rendering pipeline]: Couldn't create rendering pipeline because it is already created!"
}
