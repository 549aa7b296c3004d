/** Core/Helpers/RaylibHelpers.cs: procedural models and the trace log hook. */
module RaylibHelpers {
  import opened Common
  import opened Raylib

  /** The only generation algorithm: "box", compared exactly (case-sensitive); null is
      no algorithm. */
  predicate IsKnownAlgorithm(algorithm: Option<string>) {
    algorithm == Some("box")
  }

  /** The error logged for any other algorithm; a null algorithm prints as "". */
  function UnknownAlgorithmError(algorithm: Option<string>): GpuCall {
    TraceLog(LogError, "[Model]: Couldn't generate model resource with algorithm \""
      + (if algorithm.Some? then algorithm.value else "")
      + "\". Unknown generation algorithm type!")
  }

  /** The calls "box" makes for the fresh mesh `m`. */
  function BoxCalls(m: Mesh): seq<GpuCall> {
    [GenMesh(Cube(1.0, 1.0, 1.0), m), GenMeshTangents(m), LoadModelFromMesh(m.(tangents := true))]
  }

  /** GenerateModelByAlgorithm: "box" gives a one-mesh model of a unit cube with tangents
      and one default material; anything else logs an error and gives new Model(), which
      has no mesh. */
  method GenerateModelByAlgorithm(algorithm: Option<string>, dev: Device) returns (model: Model)
    modifies dev
    ensures IsKnownAlgorithm(algorithm) ==>
      && model == Model([Mesh(old(dev.nextHandle) + 1, 0, true)], [Material(dev.defaultShader, map[])])
      && dev.calls == old(dev.calls) + BoxCalls(Mesh(old(dev.nextHandle) + 1, 0, false))
      && dev.nextHandle == old(dev.nextHandle) + 1
    ensures !IsKnownAlgorithm(algorithm) ==>
      && model == EmptyModel
      && dev.calls == old(dev.calls) + [UnknownAlgorithmError(algorithm)]
      && dev.nextHandle == old(dev.nextHandle)
    ensures model.MeshCount() == 0 <==> !IsKnownAlgorithm(algorithm)
    ensures dev.state == old(dev.state) && dev.Env() == old(dev.Env())
  {
    if algorithm == Some("box") {
      var mesh := dev.GenMesh(Cube(1.0, 1.0, 1.0));
      mesh := dev.GenTangents(mesh);
      model := dev.ModelFromMesh(mesh);
      return;
    }
    dev.Log(LogError, "[Model]: Couldn't generate model resource with algorithm \""
      + (if algorithm.Some? then algorithm.value else "")
      + "\". Unknown generation algorithm type!");
    model := EmptyModel;
  }

  /** The managed callback raylib's log messages are forwarded to, by identity. */
  type Callback = nat

  /** The static _traceLogCallback field. */
  class TraceLogHook {
    var callback: Option<Callback>

    constructor ()
      ensures callback.None?
    {
      callback := None;
    }

    /** SetTraceLogCallback: the new callback replaces any earlier one, and raylib is
        pointed at the forwarding function. */
    method SetTraceLogCallback(cb: Callback, dev: Device)
      modifies this, dev
      ensures callback == Some(cb)
      ensures dev.calls == old(dev.calls) + [GpuCall.SetTraceLogCallback] && dev.state == old(dev.state)
      ensures dev.Env() == old(dev.Env()) && dev.nextHandle == old(dev.nextHandle)
    {
      callback := Some(cb);
      dev.Issue(GpuCall.SetTraceLogCallback);
    }
  }

  /** Forwarding a message (LogMessage) reaches the current callback, if any, with the
      level and the text unchanged; without a callback the message is dropped. */
  function Forward(hook: Option<Callback>, level: LogLevel, message: string): (r: Option<(Callback, LogLevel, string)>)
    ensures r.Some? <==> hook.Some?
    ensures r.Some? ==> r.value.0 == hook.value && r.value.1 == level && r.value.2 == message
  {
    if hook.Some? then Some((hook.value, level, message)) else None
  }
}
