/** The graphics device the engine drives through raylib and rlgl. Nothing of
    raylib's own behaviour is modelled beyond what the engine can observe:
    every call is recorded in `Device.calls`, the GL state the engine relies
    on (framebuffer binding, depth test, blending, depth mask, culling,
    shader and 3D modes, cursor, window) follows the calls through `Step`, and
    values raylib computes (image sizes, mesh counts, mipmap levels, framebuffer
    completeness, camera input) are oracles fixed when the device is created. */
module Raylib {
  import opened Common

  /** A GPU object id; 0 means "no object". */
  type Handle = nat

  datatype PixelFormat = UncompressedR8G8B8A8 | UncompressedR8G8B8 | UncompressedR32 | OtherFormat(code: int)

  /** TextureFilter; Point (0) is the enum default. An enum variable can hold any other
      32-bit value, which raylib's filter switch ignores. */
  datatype TextureFilter = Point | Bilinear | Trilinear | Anisotropic4x | Anisotropic8x | Anisotropic16x
                         | UnnamedFilter(code: int)

  datatype Texture2D = Texture2D(id: Handle, width: int, height: int, mipmaps: int, format: PixelFormat)

  /** new Texture2D { }: every field zero. */
  const NoTexture := Texture2D(0, 0, 0, 0, OtherFormat(0))

  datatype Shader = Shader(id: Handle)

  /** The material map slots the engine uses (raylib MaterialMapIndex). */
  datatype MaterialMap = DiffuseMap | SpecularMap | NormalMap | HeightMap

  datatype Material = Material(shader: Shader, maps: map<MaterialMap, Texture2D>)

  /** The mesh generators the engine uses: GenMeshCube(w, h, l), GenMeshSphere(radius,
      rings, slices) and GenMeshCubicmap(image, cubeSize one). */
  datatype MeshShape = Cube(width: real, height: real, length: real) | Sphere(radius: real, rings: int, slices: int) | Cubicmap(image: Handle)

  /** A mesh: the model handle it belongs to, its index there and whether tangents were generated. */
  datatype Mesh = Mesh(owner: Handle, index: nat, tangents: bool)

  /** raylib Model: MeshCount is |meshes| and MaterialCount is |materials|. */
  datatype Model = Model(meshes: seq<Mesh>, materials: seq<Material>) {
    function MeshCount(): nat { |meshes| }
    function MaterialCount(): nat { |materials| }
  }

  /** new Model(): no meshes and no materials. */
  const EmptyModel := Model([], [])

  datatype Projection = Perspective | Orthographic

  datatype Camera3D = Camera3D(position: Vec3, target: Vec3, up: Vec3, fovy: real, projection: Projection)

  /** raylib TraceLogLevel, in raylib's order. */
  datatype LogLevel = LogAll | LogTrace | LogDebug | LogInfo | LogWarning | LogError | LogFatal | LogNone

  /** TraceLog hands a message on, to the log callback when one is set, only when its
      level is at least the trace log level, which is LOG_INFO until SetTraceLogLevel
      changes it (the game never calls SetTraceLogLevel). */
  predicate Reported(level: LogLevel) {
    !(level == LogAll || level == LogTrace || level == LogDebug)
  }

  datatype Attachment = ColorChannel(slot: nat) | DepthAttachment

  /** A shader uniform value. Colours are uploaded normalised; the normalisation is not modelled. */
  datatype Uniform = UVec3(v: Vec3) | UVec2(x: real, y: real) | UFloat(f: real) | UInt(n: int) | UNormalizedColor(c: Color)

  /** The model matrix Scale * RotateXYZ * Translate, kept abstract. */
  datatype Transform = Transform(position: Vec3, rotation: Vec3, scale: Vec3)

  /** The source rectangle of a texture draw. */
  datatype Rect = Rect(x: real, y: real, width: real, height: real)

  datatype GpuCall =
    | TraceLog(level: LogLevel, message: string)
    | LoadTexture(path: string, texture: Texture2D)
    | SetTextureFilter(texture: Texture2D, filter: TextureFilter)
    | GenTextureMipmaps(texture: Texture2D)
    | UnloadTexture(texture: Texture2D)
    | LoadImage(path: string, image: Handle)
    | GenMesh(shape: MeshShape, mesh: Mesh)
    | GenMeshTangents(mesh: Mesh)
    | LoadModel(path: string, model: Model)
    | LoadModelFromMesh(mesh: Mesh)
    | UnloadModel(model: Model)
    | SetMaterialTexture(materialIndex: int, slot: MaterialMap, texture: Texture2D)
    | SetMaterialShader(materialIndex: int, shader: Shader)
    | DrawMesh(mesh: Mesh, material: Option<Material>, transform: Transform)
    | DrawModel(model: Model, position: Vec3, scale: real, tint: Color)
    | LoadShader(vertex: Option<string>, fragment: string, shader: Shader)
    | SetShaderValue(shader: Shader, location: int, value: Uniform)
    | SetShaderValueTexture(shader: Shader, location: int, texture: Texture2D)
    | BeginShaderMode(shader: Shader)
    | EndShaderMode
    | BeginMode3D(camera: Camera3D)
    | EndMode3D
    | UpdateCamera(camera: Camera3D)
    | LoadFramebuffer(framebuffer: Handle, width: int, height: int)
    | UnloadFramebuffer(framebuffer: Handle)
    | EnableFramebuffer(framebuffer: Handle)
    | DisableFramebuffer
    | ActiveDrawBuffers(count: int)
    | LoadRenderTexture(id: Handle, width: int, height: int, format: PixelFormat, mipmaps: int)
    | LoadTextureDepth(id: Handle, width: int, height: int)
    | FramebufferAttach(framebuffer: Handle, attached: Handle, attachment: Attachment)
    | DrawRenderBatchActive
    | EnableDepthTest | DisableDepthTest
    | EnableColorBlend | DisableColorBlend
    | EnableDepthMask | DisableDepthMask
    | EnableBackfaceCulling | DisableBackfaceCulling
    | ClearBackground(color: Color)
    | DrawTextureRec(texture: Texture2D, source: Rect, tint: Color)
    | DrawTexturePro(texture: Texture2D, row: nat)
    | DrawFps(x: int, y: int)
    | DrawText(text: string, x: int, y: int, fontSize: int, color: Color)
    | DrawRectangle(x: int, y: int, width: int, height: int, color: Color)
    | EnableCursor | DisableCursor
    | SetWindowSize(width: int, height: int)
    | SetWindowPosition(x: int, y: int)
    | ToggleFullscreen
    | SetTargetFps(fps: int)
    | SetVsync(enabled: bool)
    | SetMasterVolume(volume: real)
    | SetTraceLogCallback

  /** The device state the engine can observe. */
  datatype GpuState = GpuState(
    framebuffer: Handle,
    depthTest: bool,
    colorBlend: bool,
    depthMask: bool,
    backfaceCulling: bool,
    shaderMode: Option<Shader>,
    mode3D: Option<Camera3D>,
    cursorEnabled: bool,
    fullscreen: bool,
    targetFps: int,
    windowSize: (int, int),
    windowPosition: (int, int),
    live: set<Handle>)

  /** The effect of one call on the observable state. */
  function Step(s: GpuState, c: GpuCall): GpuState {
    match c
    case LoadTexture(_, t) => s.(live := s.live + {t.id})
    case UnloadTexture(t) => s.(live := s.live - {t.id})
    case LoadFramebuffer(fb, _, _) => s.(live := s.live + {fb})
    case UnloadFramebuffer(fb) => s.(live := s.live - {fb})
    case LoadRenderTexture(id, _, _, _, _) => s.(live := s.live + {id})
    case LoadTextureDepth(id, _, _) => s.(live := s.live + {id})
    case EnableFramebuffer(fb) => s.(framebuffer := fb)
    case DisableFramebuffer => s.(framebuffer := 0)
    case EnableDepthTest => s.(depthTest := true)
    case DisableDepthTest => s.(depthTest := false)
    case EnableColorBlend => s.(colorBlend := true)
    case DisableColorBlend => s.(colorBlend := false)
    case EnableDepthMask => s.(depthMask := true)
    case DisableDepthMask => s.(depthMask := false)
    case EnableBackfaceCulling => s.(backfaceCulling := true)
    case DisableBackfaceCulling => s.(backfaceCulling := false)
    case BeginShaderMode(sh) => s.(shaderMode := Some(sh))
    case EndShaderMode => s.(shaderMode := None)
    case BeginMode3D(cam) => s.(mode3D := Some(cam))
    case EndMode3D => s.(mode3D := None)
    case EnableCursor => s.(cursorEnabled := true)
    case DisableCursor => s.(cursorEnabled := false)
    case ToggleFullscreen => s.(fullscreen := !s.fullscreen)
    case SetTargetFps(fps) => s.(targetFps := fps)
    case SetWindowSize(w, h) => s.(windowSize := (w, h))
    case SetWindowPosition(x, y) => s.(windowPosition := (x, y))
    case _ => s
  }

  /** The cursor calls, stated directly so callers need not unfold Step. */
  lemma StepCursor(s: GpuState)
    ensures Step(s, EnableCursor) == s.(cursorEnabled := true)
    ensures Step(s, DisableCursor) == s.(cursorEnabled := false)
  {
  }

  /** The state after a run of calls. */
  function Run(s: GpuState, cs: seq<GpuCall>): GpuState
    decreases |cs|
  {
    if cs == [] then s else Run(Step(s, cs[0]), cs[1..])
  }

  lemma {:induction false} RunAppend(s: GpuState, a: seq<GpuCall>, b: seq<GpuCall>)
    ensures Run(s, a + b) == Run(Run(s, a), b)
    decreases |a|
  {
    if a == [] {
      assert a + b == b;
    } else {
      assert (a + b)[1..] == a[1..] + b;
      RunAppend(Step(s, a[0]), a[1..], b);
    }
  }

  /** The model LoadModel reads from a file with `shape` meshes and materials: the
      meshes of handle `h`, each material raylib's default. */
  function FileModel(h: Handle, shape: (nat, nat), shader: Shader): (m: Model)
    ensures m.MeshCount() == shape.0 && m.MaterialCount() == shape.1
  {
    Model(seq(shape.0, i requires 0 <= i < shape.0 => Mesh(h, i, false)), seq(shape.1, i => Material(shader, map[])))
  }

  class Device {
    /** Every call issued so far, oldest first. */
    var calls: seq<GpuCall>
    var state: GpuState
    var nextHandle: Handle
    /** GetScreenWidth/GetScreenHeight: the window's current client size. */
    var screenWidth: int
    var screenHeight: int
    /** Size of the current monitor. */
    var monitorWidth: int
    var monitorHeight: int

    /** Width and height of the image file a texture is loaded from. */
    const imageSize: string -> (int, int)
    /** Number of meshes and of materials in a model file. */
    const modelShape: string -> (nat, nat)
    /** Mip levels a texture has after GenTextureMipmaps. */
    const mipmapLevels: Texture2D -> int
    /** rlFramebufferComplete. */
    const framebufferComplete: Handle -> bool
    /** UpdateCamera(CameraMode.Custom) with the current frame's input. */
    const cameraStep: Camera3D -> Camera3D
    /** GetShaderLocation. */
    const shaderLocation: (Shader, string) -> int
    /** The shader raylib assigns to a default material. */
    const defaultShader: Shader

    constructor (initial: GpuState, imageSize: string -> (int, int), modelShape: string -> (nat, nat),
                 mipmapLevels: Texture2D -> int, framebufferComplete: Handle -> bool,
                 cameraStep: Camera3D -> Camera3D, shaderLocation: (Shader, string) -> int, defaultShader: Shader)
      ensures calls == [] && state == initial && nextHandle == 0
      ensures this.imageSize == imageSize && this.modelShape == modelShape
      ensures this.mipmapLevels == mipmapLevels && this.framebufferComplete == framebufferComplete
      ensures this.cameraStep == cameraStep && this.shaderLocation == shaderLocation
      ensures this.defaultShader == defaultShader
    {
      calls := [];
      state := initial;
      nextHandle := 0;
      screenWidth, screenHeight := 0, 0;
      monitorWidth, monitorHeight := 0, 0;
      this.imageSize := imageSize;
      this.modelShape := modelShape;
      this.mipmapLevels := mipmapLevels;
      this.framebufferComplete := framebufferComplete;
      this.cameraStep := cameraStep;
      this.shaderLocation := shaderLocation;
      this.defaultShader := defaultShader;
    }

    /** The window and monitor sizes, which only the user changes. */
    function Env(): (int, int, int, int)
      reads this
    {
      (screenWidth, screenHeight, monitorWidth, monitorHeight)
    }

    /** Issues one call. */
    method Issue(c: GpuCall)
      modifies this
      ensures calls == old(calls) + [c] && state == Step(old(state), c)
      ensures nextHandle == old(nextHandle)
      ensures Env() == old(Env())
    {
      calls := calls + [c];
      state := Step(state, c);
    }

    /** Raylib.TraceLog. */
    method Log(level: LogLevel, message: string)
      modifies this
      ensures calls == old(calls) + [TraceLog(level, message)] && state == old(state)
      ensures nextHandle == old(nextHandle)
      ensures Env() == old(Env())
    {
      Issue(TraceLog(level, message));
    }

    /** A handle no earlier call has returned. */
    method NewHandle() returns (h: Handle)
      modifies this
      ensures h == old(nextHandle) + 1 && nextHandle == h
      ensures calls == old(calls) && state == old(state)
      ensures Env() == old(Env())
    {
      nextHandle := nextHandle + 1;
      h := nextHandle;
    }

    /** The window is resized by the user: the next frame sees the new size. */
    method Resize(width: int, height: int)
      modifies this
      ensures screenWidth == width && screenHeight == height
      ensures calls == old(calls) && state == old(state) && nextHandle == old(nextHandle)
      ensures monitorWidth == old(monitorWidth) && monitorHeight == old(monitorHeight)
    {
      screenWidth, screenHeight := width, height;
    }

    /** Raylib.LoadTexture: a fresh texture with one mip level, sized like the image file. */
    method LoadTexture(path: string) returns (t: Texture2D)
      modifies this
      ensures t.id == old(nextHandle) + 1 && t.mipmaps == 1 && t.format == UncompressedR8G8B8A8
      ensures (t.width, t.height) == imageSize(path)
      ensures calls == old(calls) + [GpuCall.LoadTexture(path, t)] && state == Step(old(state), GpuCall.LoadTexture(path, t))
      ensures nextHandle == old(nextHandle) + 1
      ensures Env() == old(Env())
    {
      var h := NewHandle();
      t := Texture2D(h, imageSize(path).0, imageSize(path).1, 1, UncompressedR8G8B8A8);
      Issue(GpuCall.LoadTexture(path, t));
    }

    /** Raylib.GenTextureMipmaps(ref texture). */
    method GenMipmaps(t: Texture2D) returns (r: Texture2D)
      modifies this
      ensures r == t.(mipmaps := mipmapLevels(t))
      ensures calls == old(calls) + [GenTextureMipmaps(t)] && state == old(state)
      ensures nextHandle == old(nextHandle)
      ensures Env() == old(Env())
    {
      Issue(GenTextureMipmaps(t));
      r := t.(mipmaps := mipmapLevels(t));
    }

    /** Raylib.LoadImage: an image handle in CPU memory. */
    method LoadImage(path: string) returns (image: Handle)
      modifies this
      ensures image == old(nextHandle) + 1
      ensures calls == old(calls) + [GpuCall.LoadImage(path, image)] && state == old(state)
      ensures nextHandle == old(nextHandle) + 1
      ensures Env() == old(Env())
    {
      image := NewHandle();
      Issue(GpuCall.LoadImage(path, image));
    }

    /** GenMeshCube, GenMeshSphere, GenMeshCubicmap: a fresh mesh without tangents. */
    method GenMesh(shape: MeshShape) returns (m: Mesh)
      modifies this
      ensures m == Mesh(old(nextHandle) + 1, 0, false)
      ensures calls == old(calls) + [GpuCall.GenMesh(shape, m)] && state == old(state)
      ensures nextHandle == old(nextHandle) + 1
      ensures Env() == old(Env())
    {
      var h := NewHandle();
      m := Mesh(h, 0, false);
      Issue(GpuCall.GenMesh(shape, m));
    }

    /** Raylib.GenMeshTangents(ref mesh). */
    method GenTangents(m: Mesh) returns (r: Mesh)
      modifies this
      ensures r == m.(tangents := true)
      ensures calls == old(calls) + [GenMeshTangents(m)] && state == old(state)
      ensures nextHandle == old(nextHandle)
      ensures Env() == old(Env())
    {
      Issue(GenMeshTangents(m));
      r := m.(tangents := true);
    }

    /** Raylib.LoadModelFromMesh: one mesh with one default material. */
    method ModelFromMesh(m: Mesh) returns (model: Model)
      modifies this
      ensures model == Model([m], [Material(defaultShader, map[])])
      ensures calls == old(calls) + [LoadModelFromMesh(m)] && state == old(state)
      ensures nextHandle == old(nextHandle)
      ensures Env() == old(Env())
    {
      Issue(LoadModelFromMesh(m));
      model := Model([m], [Material(defaultShader, map[])]);
    }

    /** Raylib.LoadModel: as many meshes and default materials as the file holds. */
    method LoadModel(path: string) returns (model: Model)
      modifies this
      ensures model == FileModel(old(nextHandle) + 1, modelShape(path), defaultShader)
      ensures model.MeshCount() == modelShape(path).0 && model.MaterialCount() == modelShape(path).1
      ensures calls == old(calls) + [GpuCall.LoadModel(path, model)] && state == old(state)
      ensures nextHandle == old(nextHandle) + 1
      ensures Env() == old(Env())
    {
      var h := NewHandle();
      var shape := modelShape(path);
      model := FileModel(h, shape, defaultShader);
      Issue(GpuCall.LoadModel(path, model));
    }

    /** Raylib.LoadShader. */
    method LoadShader(vertex: Option<string>, fragment: string) returns (s: Shader)
      modifies this
      ensures s == Shader(old(nextHandle) + 1)
      ensures calls == old(calls) + [GpuCall.LoadShader(vertex, fragment, s)] && state == old(state)
      ensures nextHandle == old(nextHandle) + 1
      ensures Env() == old(Env())
    {
      var h := NewHandle();
      s := Shader(h);
      Issue(GpuCall.LoadShader(vertex, fragment, s));
    }

    /** Raylib.UpdateCamera(ref camera, CameraMode.Custom). */
    method StepCamera(cam: Camera3D) returns (r: Camera3D)
      modifies this
      ensures r == cameraStep(cam)
      ensures calls == old(calls) + [UpdateCamera(cam)] && state == old(state)
      ensures nextHandle == old(nextHandle)
      ensures Env() == old(Env())
    {
      Issue(UpdateCamera(cam));
      r := cameraStep(cam);
    }
  }
}
