/** What the scene-drawing stages share: the main scene drawn through its main camera,
    as GeometryStage, PointLightingStage and ForwardStage each write it out. */
module StageCommon {
  import opened Common
  import Dict
  import opened Raylib
  import opened RenderBuffers
  import opened Scenes
  import opened SceneCreation

  /** values[names[0]], ..., values[names[n - 1]] in turn: the textures found, up to the
      first name the map lacks, where the indexer throws. */
  function Lookups(values: Channels, names: seq<string>, n: nat): (ts: seq<Texture2D>)
    requires n <= |names|
    ensures |ts| <= n
  {
    if n == 0 then []
    else
      var ts := Lookups(values, names, n - 1);
      if |ts| < n - 1 then ts
      else match Dict.Get(values, names[n - 1])
        case None => ts
        case Some(t) => ts + [t]
  }

  /** The lookups find the textures stored under the names, in order, and stop at the
      first name the map lacks; all n succeed exactly when all n names are present. */
  lemma {:induction false} LookupsSpec(values: Channels, names: seq<string>, n: nat)
    requires n <= |names|
    ensures var ts := Lookups(values, names, n);
      && (forall k :: 0 <= k < |ts| ==> Dict.Get(values, names[k]) == Some(ts[k]))
      && (|ts| < n ==> !Dict.HasKey(values, names[|ts|]))
      && (|ts| == n <==> forall k :: 0 <= k < n ==> Dict.HasKey(values, names[k]))
  {
    if n > 0 {
      LookupsSpec(values, names, n - 1);
    }
  }

  /** Lookup n after n successful ones finds its texture or throws. */
  lemma LookupsStep(values: Channels, names: seq<string>, n: nat)
    requires n < |names| && |Lookups(values, names, n)| == n
    ensures var t := Dict.Get(values, names[n]);
      Lookups(values, names, n + 1) == if t.None? then Lookups(values, names, n) else Lookups(values, names, n) + [t.value]
  {
  }

  /** Once a lookup has thrown, the later ones find nothing. */
  lemma {:induction false} LookupsStop(values: Channels, names: seq<string>, n: nat, m: nat)
    requires n <= m <= |names| && |Lookups(values, names, n)| < n
    ensures Lookups(values, names, m) == Lookups(values, names, n)
    decreases m - n
  {
    if n < m {
      LookupsSpec(values, names, n);
      assert |Lookups(values, names, n + 1)| < n + 1;
      LookupsStop(values, names, n + 1, m);
    }
  }

  /** The calls of a pass through camera `cam` drawing `draws`. */
  function CameraPass(cam: Camera3D, draws: seq<GpuCall>): seq<GpuCall> {
    [BeginMode3D(cam)] + draws + [EndMode3D]
  }

  /** The calls that drawing the main scene through its main camera makes. */
  ghost function SceneDraw(holder: SceneHolder): seq<GpuCall>
    requires holder.Valid() && holder.main != null
    reads holder, holder.main, holder.main.mainCamera, holder.main.worlds, holder.main.renderModels
  {
    var scene := holder.main;
    CameraPass(scene.mainCamera.camera, RenderablesCalls(scene.renderables, 0, scene.worlds, scene.renderModels))
  }

  /** scene.MainCamera.BeginCameraMode(); scene.Render(); scene.MainCamera.EndCameraMode():
      the scene's renderables are drawn, in order, with the main camera's 3D mode on
      around them and off after. */
  method DrawScene(holder: SceneHolder, dev: Device)
    requires holder.Valid() && holder.main != null
    modifies dev
    ensures dev.calls == old(dev.calls) + old(SceneDraw(holder))
    ensures dev.state.mode3D == None
    ensures dev.nextHandle == old(dev.nextHandle) && dev.Env() == old(dev.Env())
  {
    var scene := holder.main;
    var camera := scene.mainCamera;
    ghost var draws := RenderablesCalls(scene.renderables, 0, scene.worlds, scene.renderModels);
    camera.BeginCameraMode(dev);
    scene.Render(dev);
    camera.EndCameraMode(dev);
    AppendAssoc(old(dev.calls), [BeginMode3D(camera.camera)] + draws, [EndMode3D]);
    AppendAssoc(old(dev.calls), [BeginMode3D(camera.camera)], draws);
  }
}
