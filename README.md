# DeadGalaxy deferred renderer — a Dafny model

This project models the core of DeadGalaxy, a small raylib game engine written in C#.
The core is the scene loader, the entities and resources it creates, the deferred
rendering pipeline with its stages and G-buffer, and the debug console and configuration
around them. The model is in Dafny, and the project states and proves properties of it.

What is modelled:

- **Scene loading** (`Scene.cs`, modules `SceneRules`, `SceneLoading`, `EntityLoading`,
  `SceneCreation`, `Scenes`).
  - Resource loading registers the fallback texture and model first. It then skips every
    declaration that has a blank name, a missing file, a blank generation algorithm, a
    generated texture, a model without meshes or an unknown type. It loads the rest, and a
    repeated name throws.
  - Property resolution replaces a `Texture`/`Model` reference with the loaded resource
    of that name. A reference to a name that was not loaded gets the kind's "fallback"
    resource and logs an error. It throws only when "fallback" itself is missing or the
    property's JSON object does not convert.
  - Entity dispatch creates static, dynamic, world, camera and point-light entities and
    files each into the scene's collections.
  - The scene picks its main camera, and `Load` and `Clear` manage the current
    `Scene.Main`.
- **Entities and resources** (`Entities`, `Resources`, `Binding`, `Values`, `Interfaces`,
  `CollectionExtensions`).
  - Properties are bound to fields by case-insensitive name through a per-kind field table.
  - `TextureResource` and `ModelResource` own GPU handles.
  - A `WorldEntity` owns its chunks.
  - `IRenderable`, `IUpdatable` and `IDisposable` dispatch to each entity kind, and
    `ClearWithDispose` disposes the items of a collection and then empties it.
- **Rendering pipeline** (`RenderingPipelines`, `StageCommon`, `GeometryStages`,
  `PointLightingStages`, `FinalStages`, `ForwardStages`, `DebugStages`, `RenderBuffers`).
  - Stages run in order, and each stage's output channels are added to one dictionary that
    later stages read.
  - The G-buffer `RenderBuffer` allocates its textures and framebuffer and resizes itself
    to the screen.
  - The point-lighting stage uploads at most as many lights as the shader has slots.
  - The final stage composites the lit image, and the debug stage draws the channel
    thumbnails.
- **Debug console, GUI mode and configuration** (`DebugConsole`, `Gui`, `Configuration`,
  `ConfigurationUpdate`, `RaylibHelpers`).
  - The console keeps a prompt, a command history without repetitions and a log. It runs
    `load`, `set` and `help`.
  - The GUI-mode counter is clamped at zero, and the cursor follows it.
  - Configuration values are read with defaults, and a `set` is applied back to the
    window, FPS lock, v-sync and texture filtering.

Modelling conventions:

- **The GPU.** Raylib and Rlgl are one `Device` object (module `Raylib`).
  - Every call the engine makes is appended to a call log.
  - The GL state the engine relies on is a pure function `Step` of the previous state and
    the call. That state covers the bound framebuffer, depth test, blending, depth mask,
    culling, shader and 3D modes, the cursor and the live handles.
  - Results that come from the native library are oracles fixed with the device: image
    sizes, mesh counts, mip levels, framebuffer completeness and the camera's input step.
- **Collections and statics.**
  - A .NET `Dictionary` is an association list with distinct keys, enumerated in insertion
    order (module `Dict`). A `HashSet` or `List` is a sequence.
  - C# statics are explicit context objects: `Scene.Main`, `RenderingPipeline.Instance`,
    the configuration instance, the GUI counter and the console instance.
- **Interfaces and failures.**
  - Polymorphic interfaces are tagged datatypes over the classes, dispatched by `match`.
  - An exception is a `thrown` result, with the state at the point of the throw stated.

## Model

| member | source | states |
|---|---|---|
| Dict.Get | DeadGalaxy/Core/Scene.cs:274-288 | TryGetValue finds a value exactly when the key is present, and it is that key's entry |
| Dict.Add | DeadGalaxy/Core/Scene.cs:217 | Dictionary.Add throws exactly when the key is present; otherwise the entry is appended and the keys stay distinct |
| Dict.Put | DeadGalaxy/Core/Scene.cs:276-295 | the indexer overwrites an existing key in place, keeping the key order, or appends a new one; other entries are untouched |
| Dict.GetAfterPut | DeadGalaxy/Core/Scene.cs:276-295 | reading a key after writing it gives the written value |
| Dict.PutInPlace | DeadGalaxy/Core/Scene.cs:276-295 | in a dictionary, writing an existing key replaces that entry's value at its own position |
| Dict.AddAllSpec | DeadGalaxy/Core/Rendering/RenderingPipeline.cs:74-77 | adding a stage's outputs one by one succeeds exactly when the merged entries repeat no key, and then yields the merged entries |
| Dict.ToDictionary | DeadGalaxy/Core/Rendering/RenderBuffer.cs:37 | ToDictionary of the channel list succeeds exactly when no name repeats, and then keeps the list |
| Interfaces.Render | DeadGalaxy/Core/Entities/IRenderable.cs:42 | IRenderable.Render dispatches to the entity's own Render and makes exactly the draw calls RenderCalls gives, changing no GPU state |
| Interfaces.Update | DeadGalaxy/Core/Entities/IUpdatable.cs:26 | IUpdatable.Update steps a camera unless GUI mode is on, and leaves a dynamic entity as it is |
| Interfaces.Dispose | DeadGalaxy/Core/Helpers/CollectionExtensions.cs:35-37 | IDisposable.Dispose unloads a texture or a model, or every chunk model of a world, whose chunk set is then empty |
| StageCommon.LookupsSpec | DeadGalaxy/Core/Rendering/PointLightingStage.cs:103-113 | the indexer lookups find the textures stored under the names, in order, stop at the first missing name, and all succeed iff every name is present |
| StageCommon.LookupsStep | DeadGalaxy/Core/Rendering/PointLightingStage.cs:103-113 | a lookup after successful ones either finds its texture or throws |
| StageCommon.LookupsStop | DeadGalaxy/Core/Rendering/PointLightingStage.cs:103-113 | once a lookup has thrown, no later lookup runs |
| StageCommon.DrawScene | DeadGalaxy/Core/Rendering/GeometryStage.cs:77-83 | the scene's renderables are drawn in order between the main camera's BeginMode3D and EndMode3D, and 3D mode is off afterwards |
| Binding.Lookup | DeadGalaxy/Core/Entities/BaseEntity.cs:53-54 | the field found has a name equal to the property's ignoring case; no field is found only when no field's name matches |
| Binding.Assignable | DeadGalaxy/Core/Entities/BaseEntity.cs:64 | the value SetValue stores is null or an instance of the field's type |
| Binding.LoadProperties | DeadGalaxy/Core/Entities/BaseEntity.cs:46-66 | the loop over the properties binds exactly the fields of the in-order fold Bind, logs its warnings, and stops at the first conversion exception |
| Binding.BindStopsAtThrow | DeadGalaxy/Core/Entities/BaseEntity.cs:51-65 | once a conversion throws, the remaining properties change neither the fields nor the log |
| Binding.LastWins | DeadGalaxy/Core/Entities/BaseEntity.cs:51-65 | after binding, a field is set iff some property selects it, and it holds the converted value of the last such property (a later key differing only in case wins) |
| Binding.LookupIgnoresCase | DeadGalaxy/Core/Entities/BaseEntity.cs:53-54 | two names equal ignoring case select the same field |
| Binding.UnknownNameOnlyWarns | DeadGalaxy/Core/Entities/BaseEntity.cs:56-62 | a property matching no field adds exactly the warning naming the class and the property, changes no field, and binding continues |
| Values.Convert | DeadGalaxy/Core/Helpers/ObjectExtensions.cs:40-60 | only the JObject path (ToObject, not guarded) can throw |
| Values.ConvertIdentity | DeadGalaxy/Core/Helpers/ObjectExtensions.cs:42-45 | a value already of the target type is returned unchanged |
| Values.ConvertThrowsOnlyInToObject | DeadGalaxy/Core/Helpers/ObjectExtensions.cs:47-59 | conversion throws iff the value is a JObject not of the target type whose ToObject fails; every other failed ChangeType yields null |
| Values.MismatchedObjectIsNull | DeadGalaxy/Core/Helpers/ObjectExtensions.cs:52-59 | a value that is not IConvertible and not of the target type converts to null |
| Values.OnlyObjectsResolve | DeadGalaxy/Core/Helpers/ObjectExtensions.cs:30-33 | the generic Convert<ResolveProperty> yields a directive only for a directive or a JObject; anything else is null, and only a JObject can throw |
| Entities.StaticEntity.constructor | DeadGalaxy/Core/Entities/StaticEntity.cs:31-34 | the model is stored as given, position and rotation are zero, scale is one, and nothing is bound |
| Entities.StaticEntity.Bound | DeadGalaxy/Core/Entities/StaticEntity.cs:49-64 | each bindable field holds the value binding assigned it, or its initialiser: null model, zero position and rotation, scale one |
| Entities.StaticEntity.FromProperties | DeadGalaxy/Core/Entities/StaticEntity.cs:41-44 | the property constructor binds after the initialisers: it throws iff binding throws, logs binding's warnings, and otherwise yields a fresh entity with the bound fields over the defaults |
| Entities.StaticDefaults | DeadGalaxy/Core/Entities/StaticEntity.cs:64 | when no property selects Scale, the scale stays one |
| Entities.StaticEntity.Render | DeadGalaxy/Core/Entities/StaticEntity.cs:69-72 | nothing without a model; otherwise the model is drawn with the entity's own position, rotation and scale |
| Entities.DynamicEntity.constructor | DeadGalaxy/Core/Entities/DynamicEntity.cs:30-33 | the StaticEntity constructor with the same defaults |
| Entities.DynamicEntity.FromProperties | DeadGalaxy/Core/Entities/DynamicEntity.cs:40-43 | StaticEntity's binding of the same fields, with warnings naming DynamicEntity |
| Entities.DynamicEntity.Render | DeadGalaxy/Core/Entities/DynamicEntity.cs:23 | the inherited Render: exactly StaticEntity's draw calls |
| Entities.DynamicEntity.Update | DeadGalaxy/Core/Entities/DynamicEntity.cs:49-52 | changes nothing, for any dt |
| Entities.WorldEntity.Bound | DeadGalaxy/Core/Entities/WorldEntity.cs:59-99 | each bindable field holds its bound value or its type default; Scale has no initialiser, so it defaults to zero; there are no chunks yet |
| Entities.WorldEntity.Create | DeadGalaxy/Core/Entities/WorldEntity.cs:38-54 | binding runs first; it throws iff binding throws or the map file {basePath}/{MapPath} is missing; otherwise the map image is loaded and the world has exactly one fresh chunk built from it with the bound textures |
| Entities.WorldEntity.Build | DeadGalaxy/Core/Entities/WorldEntity.cs:42-53 | a missing map file throws before any call; otherwise LoadImage of the map file and then LoadChunk's calls, and the chunk set is that one chunk |
| Entities.WorldEntity.LoadChunk | DeadGalaxy/Core/Entities/WorldEntity.cs:131-155 | a fresh chunk named "Chunk1" with the default transform over a fresh model resource "Chunk1" holding the cubic-map mesh with tangents and the world's textures |
| Entities.WorldEntity.SetChunkTextures | DeadGalaxy/Core/Entities/WorldEntity.cs:139-152 | the diffuse, normal and specular maps of material 0 are set, in that order, exactly for the world's textures that are not null |
| Entities.ChunkModel | DeadGalaxy/Core/Entities/WorldEntity.cs:133-137 | a fresh model resource named "Chunk1" with one mesh and one material, which gets the pipeline's shader when a pipeline exists |
| Entities.WorldEntity.Render | DeadGalaxy/Core/Entities/WorldEntity.cs:104-110 | every chunk is drawn, in order |
| Entities.RenderChunks | DeadGalaxy/Core/Entities/WorldEntity.cs:106-109 | the loop draws each chunk in turn |
| Entities.WorldIgnoresOwnTransform | DeadGalaxy/Core/Entities/WorldEntity.cs:104-110 | a constructed world draws its one chunk mesh with position and rotation zero and scale one, whatever its own Position, Rotation and Scale are |
| Entities.WorldEntity.Dispose | DeadGalaxy/Core/Entities/WorldEntity.cs:115-125 | every chunk's model is unloaded, in order, and the chunk set is then empty |
| Entities.UnloadChunks | DeadGalaxy/Core/Entities/WorldEntity.cs:118-121 | the loop unloads each chunk's model, skipping chunks without one |
| Entities.DisposeUnloadsChunk | DeadGalaxy/Core/Entities/WorldEntity.cs:115-125 | disposing a constructed world unloads exactly its one chunk model |
| Entities.CameraEntity.constructor | DeadGalaxy/Core/Entities/CameraEntity.cs:33-43 | position one, target zero, up UnitY, fovy 45, perspective, and not main |
| Entities.CameraEntity.Bound | DeadGalaxy/Core/Entities/CameraEntity.cs:58-76 | only the position, the target and IsMain take bound values; up, fovy and projection keep the defaults |
| Entities.CameraEntity.FromProperties | DeadGalaxy/Core/Entities/CameraEntity.cs:50-53 | the default camera, then binding: throws iff binding throws, and otherwise overrides only the bound fields |
| Entities.CameraKeepsDefaults | DeadGalaxy/Core/Entities/CameraEntity.cs:50-76 | properties naming none of Position, Target and IsMain leave the default camera, not main |
| Entities.CameraEntity.SetPosition | DeadGalaxy/Core/Entities/CameraEntity.cs:58-62 | the position getter returns the value written, and the target is unchanged |
| Entities.CameraEntity.SetTarget | DeadGalaxy/Core/Entities/CameraEntity.cs:67-71 | the target getter returns the value written, and the position is unchanged |
| Entities.CameraEntity.Update | DeadGalaxy/Core/Entities/CameraEntity.cs:82-90 | nothing while GUI mode is on; otherwise one UpdateCamera step |
| Entities.CameraEntity.BeginCameraMode | DeadGalaxy/Core/Entities/CameraEntity.cs:95-98 | BeginMode3D with this camera, and 3D mode is on with it |
| Entities.CameraEntity.EndCameraMode | DeadGalaxy/Core/Entities/CameraEntity.cs:103-106 | EndMode3D, and 3D mode is off |
| Entities.PointLightEntity.Bound | DeadGalaxy/Core/Entities/PointLightEntity.cs:39-54 | each of position, radius, intensity and color holds its bound value or its type default (zero, and the all-zero color) |
| Entities.PointLightEntity.FromProperties | DeadGalaxy/Core/Entities/PointLightEntity.cs:31-34 | construction always binds: it throws iff binding throws, logs binding's warnings, and otherwise yields the bound light |
| Entities.NamePropertyOverrides | DeadGalaxy/Core/Entities/BaseEntity.cs:32-40 | the name passed to the constructor survives binding when no property selects Name (a property that does replaces it, by LastWins) |
| RaylibHelpers.GenerateModelByAlgorithm | DeadGalaxy/Core/Helpers/RaylibHelpers.cs:33-48 | exactly "box" (case-sensitive) yields a one-mesh unit cube with tangents from GenMeshCube, GenMeshTangents and LoadModelFromMesh; any other algorithm, null included, logs the error naming it and yields a model with no mesh; the model has no mesh iff the algorithm is unknown |
| RaylibHelpers.TraceLogHook.constructor | DeadGalaxy/Core/Helpers/RaylibHelpers.cs:27 | no callback is stored at start-up |
| RaylibHelpers.TraceLogHook.SetTraceLogCallback | DeadGalaxy/Core/Helpers/RaylibHelpers.cs:55-59 | the new callback replaces any earlier one and raylib's log is pointed at the forwarder |
| RaylibHelpers.Forward | DeadGalaxy/Core/Helpers/RaylibHelpers.cs:65-70 | a raylib message reaches the stored callback with its level and text, and is dropped when none is stored |
| Resources.TextureResource.constructor | DeadGalaxy/Core/Resources/TextureResource.cs:32-48 | the name is fixed; the configured mipmaps are applied, then Point filtering, then the configured filter, in that order of calls |
| Resources.TextureResource.SetFiltering | DeadGalaxy/Core/Resources/TextureResource.cs:64-67 | one SetTextureFilter call on the owned texture, nothing else |
| Resources.TextureResource.SetMipmaps | DeadGalaxy/Core/Resources/TextureResource.cs:73-86 | enabling generates mip levels only when the texture has exactly one level; disabling sets the level count to 1 without a GPU call |
| Resources.MipmapsIdempotent | DeadGalaxy/Core/Resources/TextureResource.cs:73-86 | SetMipmaps changes only the level count, and applying the same setting twice is the same as applying it once |
| Resources.TextureResource.Dispose | DeadGalaxy/Core/Resources/TextureResource.cs:91-94 | the owned texture is unloaded |
| Resources.ModelResource.constructor | DeadGalaxy/Core/Resources/ModelResource.cs:34-41 | the name is fixed and, when a pipeline exists, every material gets its default shader; without one the model is untouched and no call is made |
| Resources.ModelResource.SetDefaultShader | DeadGalaxy/Core/Resources/ModelResource.cs:119-131 | one SetMaterialShader per material in index order, after which every material uses the pipeline's shader; a missing pipeline changes nothing |
| Resources.DefaultShaderEverywhere | DeadGalaxy/Core/Resources/ModelResource.cs:126-130 | the shader assignment keeps the meshes, the number of materials and every material's maps |
| Resources.ModelResource.SetMaterialTexture | DeadGalaxy/Core/Resources/ModelResource.cs:59-62 | exactly the given map of the given material now holds the texture; every other material is unchanged |
| Resources.ModelResource.Render | DeadGalaxy/Core/Resources/ModelResource.cs:91-106 | one DrawMesh per mesh, in order, with the transform of the arguments; the color is not used |
| Resources.DrawsPairMeshes | DeadGalaxy/Core/Resources/ModelResource.cs:101-105 | Render draws exactly MeshCount meshes and pairs mesh i with material i |
| Resources.ModelResource.RenderAt | DeadGalaxy/Core/Resources/ModelResource.cs:67-70 | rotation zero and scale one |
| Resources.ModelResource.RenderRotated | DeadGalaxy/Core/Resources/ModelResource.cs:75-78 | scale one |
| Resources.ModelResource.RenderScaled | DeadGalaxy/Core/Resources/ModelResource.cs:83-86 | the full overload with white, which draws the same |
| Resources.ModelResource.Dispose | DeadGalaxy/Core/Resources/ModelResource.cs:111-114 | the owned model is unloaded |
| SceneRules.PathNeverBlank | DeadGalaxy/Core/Scene.cs:187-188 | the path `{BasePath}/{FilePath}` always holds the '/', so the null-or-white-space test on it never fires |
| SceneRules.SkipConditions | DeadGalaxy/Core/Scene.cs:180-241 | a resource declaration is loaded exactly when none of the skip conditions holds: blank name, missing file of a file resource, blank algorithm of a generated one, generated texture, model with no meshes, unknown type |
| SceneRules.KeptNames | DeadGalaxy/Core/Scene.cs:177-243 | the names kept for a table are exactly the names of the declarations with that outcome, in both directions |
| SceneRules.KeptPrefix | DeadGalaxy/Core/Scene.cs:177-243 | the names kept from a prefix of the declarations are a prefix of those kept from all of them |
| SceneRules.KeptStep | DeadGalaxy/Core/Scene.cs:177-243 | one more declaration appends its name to the kept names exactly when it has that outcome |
| SceneRules.KeptAt | DeadGalaxy/Core/Scene.cs:177-243 | the positions of the kept declarations of one kind, increasing, one per kept name, each naming a declaration with that outcome |
| SceneRules.FallbackNameClashes | DeadGalaxy/Core/Scene.cs:217 | a texture or model loaded under the name "fallback" collides with the fallback entry, so loading cannot succeed |
| SceneRules.ResolveValue | DeadGalaxy/Core/Scene.cs:265-306 | a property value is replaced only by a resource of the directive's kind that is in that table; an exception escapes only for a conversion failure or a missing "fallback" entry |
| SceneRules.TextureDirective | DeadGalaxy/Core/Scene.cs:273-286 | a texture directive yields a texture resource of the table (the named one or "fallback"); it throws only when "fallback" is missing |
| SceneRules.ModelDirective | DeadGalaxy/Core/Scene.cs:287-300 | a model directive yields a model resource of the table (the named one or "fallback"); it throws only when "fallback" is missing |
| SceneRules.ResolveThrows | DeadGalaxy/Core/Scene.cs:263-307 | resolving an entity's properties throws exactly when resolving one of its values throws |
| SceneRules.ResolvedInPlace | DeadGalaxy/Core/Scene.cs:263-307 | without an exception, every key keeps its place and each resolved value replaces its own entry; the rest are unchanged |
| SceneRules.IndexerOverwritesInPlace | DeadGalaxy/Core/Scene.cs:276-295 | each write-back through the indexer during enumeration is a Dictionary overwrite of the key being enumerated, in place |
| SceneRules.DeclaredStep | DeadGalaxy/Core/Scene.cs:252-260 | one more declaration adds itself to the declarations of its type exactly when it is named |
| Scenes.Scene.Empty | DeadGalaxy/Core/Scene.cs:30-37 | a scene starts with empty tables and collections and no main camera |
| Scenes.Scene.Render | DeadGalaxy/Core/Scene.cs:135-141 | every renderable renders once, in enumeration order, and the GPU state is unchanged |
| Scenes.RenderAll | DeadGalaxy/Core/Scene.cs:137-140 | the loop issues exactly the concatenated render calls of the renderables |
| Scenes.Scene.Update | DeadGalaxy/Core/Scene.cs:124-130 | every updatable (the cameras, in order) updates: outside GUI mode each camera takes its input step, inside it nothing changes |
| Scenes.UpdateAll | DeadGalaxy/Core/Scene.cs:126-129 | the loop updates each camera in order and issues one UpdateCamera per camera outside GUI mode |
| Scenes.CameraStepsGrow | DeadGalaxy/Core/Scene.cs:126-129 | one more camera appends exactly its UpdateCamera call |
| Scenes.Scene.Clear | DeadGalaxy/Core/Scene.cs:146-156 | all six collections end empty, each world among the renderables is disposed once, then every texture and then every model is unloaded in table order; the scene stays valid |
| Scenes.Scene.ClearInOrder | DeadGalaxy/Core/Scene.cs:148-155 | the entity collections are cleared before the resource tables, with the calls of each in that order |
| Scenes.Scene.ClearEntities | DeadGalaxy/Core/Scene.cs:148-152 | point lights, cameras, renderables and updatables end empty; only the worlds among the renderables issue calls |
| Scenes.Scene.ClearRenderables | DeadGalaxy/Core/Scene.cs:151 | the renderables end empty and each world among them is disposed exactly once |
| Scenes.Scene.ClearResources | DeadGalaxy/Core/Scene.cs:154-155 | both tables end empty, every texture unloaded and then every model unloaded, in table order |
| Scenes.Scene.ClearTextures | DeadGalaxy/Core/Scene.cs:154 | the texture table ends empty and each texture is unloaded once, in table order |
| Scenes.Scene.ClearModels | DeadGalaxy/Core/Scene.cs:155 | the model table ends empty and each model is unloaded once, in table order |
| Scenes.RenderablesReady | DeadGalaxy/Core/Scene.cs:151 | renderables ready to render are ready to be disposed, and their worlds are the scene's |
| Scenes.DisposalsOfDistinctWorlds | DeadGalaxy/Core/Scene.cs:151 | since the renderables form a set, disposing them disposes each world among them exactly once |
| Scenes.NoWorlds | DeadGalaxy/Core/Scene.cs:148-155 | disposing a collection with no world in it changes no world |
| SceneLoading.LoadFallbacks | DeadGalaxy/Core/Scene.cs:165-174 | the tables start with exactly the "fallback" texture and the "fallback" cube model, whose diffuse map is the fallback texture |
| SceneLoading.LoadFallbackTexture | DeadGalaxy/Core/Scene.cs:165-167 | Fallback.png is loaded and stored as the "fallback" texture resource, with the configured mipmaps and filter |
| SceneLoading.LoadFallbackModel | DeadGalaxy/Core/Scene.cs:170-174 | a 0.1 cube becomes the "fallback" model with one material whose diffuse map is the fallback texture |
| SceneLoading.LoadStep | DeadGalaxy/Core/Scene.cs:177-243 | one declaration appends exactly its own calls and handles to the fold |
| SceneLoading.LoadFirstFollowsRules | DeadGalaxy/Core/Scene.cs:177-243 | loading the first n declarations throws exactly when the kept names clash with each other or with "fallback"; otherwise the keys are "fallback" then the kept names in order; keys never repeat |
| SceneLoading.ClashPersists | DeadGalaxy/Core/Scene.cs:217-234 | a clash among the first declarations stays a clash when more follow |
| SceneLoading.StepFollowsRules | DeadGalaxy/Core/Scene.cs:177-243 | one more declaration keeps the fold in line with the clash rule |
| SceneLoading.StepCases | DeadGalaxy/Core/Scene.cs:204-242 | a step adds a key only for a loaded texture or model, and throws only on a duplicate key |
| SceneLoading.LoadResource | DeadGalaxy/Core/Scene.cs:178-242 | one pass of the loop keeps the tables and the log in step with the fold; a texture or model it adds is fresh and holds the name and the resource the rules give for the declaration |
| SceneLoading.LoadChecked | DeadGalaxy/Core/Scene.cs:180-242 | one declaration: it throws exactly on a clash; its calls and handles are the rule's; a table grows by one fresh entry only for a loaded resource of its kind |
| SceneLoading.LoadNamed | DeadGalaxy/Core/Scene.cs:187-242 | the same, past the name check |
| SceneLoading.LoadByType | DeadGalaxy/Core/Scene.cs:204-242 | the same, past the file and algorithm checks |
| SceneLoading.LoadTextureDeclaration | DeadGalaxy/Core/Scene.cs:206-219 | a generated texture is skipped silently; any other is loaded and added |
| SceneLoading.LoadModelDeclaration | DeadGalaxy/Core/Scene.cs:220-236 | a model with no meshes is logged as corrupted and skipped; any other is added |
| SceneLoading.ModelOutcome | DeadGalaxy/Core/Scene.cs:220-236 | a model declaration's outcome and calls follow from its mesh count |
| SceneLoading.LoadTextureResource | DeadGalaxy/Core/Scene.cs:214-217 | LoadTexture then Dictionary.Add: throws exactly when the name is taken; otherwise the table gains one fresh resource under that name |
| SceneLoading.ObtainModel | DeadGalaxy/Core/Scene.cs:221-223 | a generated model comes from the algorithm (one mesh for "box", none otherwise), a file model from LoadModel |
| SceneLoading.LoadModelResource | DeadGalaxy/Core/Scene.cs:221-234 | a model without meshes is logged and not added; otherwise Dictionary.Add throws exactly when the name is taken |
| SceneLoading.NextStep | DeadGalaxy/Core/Scene.cs:177-243 | the fold over one more declaration is one more step, and its keys never repeat |
| SceneLoading.ThrownPersists | DeadGalaxy/Core/Scene.cs:217-234 | once Add has thrown, later declarations change nothing |
| SceneLoading.LoadResources | DeadGalaxy/Core/Scene.cs:162-244 | fallbacks first, then each declaration in order; it throws exactly when the kept names clash; otherwise the keys are "fallback" then the kept names in order, and the k-th kept texture (model) entry holds the declaration's name and the texture (model) the rules load for that declaration, with the mipmaps setting applied (the default shader set); the tables are always dictionaries, no texture resource twice |
| SceneLoading.LoadDeclared | DeadGalaxy/Core/Scene.cs:177-243 | the loop over the declarations issues the fold's calls and handles, the tables only grow, and every entry after the fallback is the resource of the kept declaration at its position |
| SceneLoading.LoadEach | DeadGalaxy/Core/Scene.cs:177-243 | the loop runs until the declarations end or one throws, the tables only grow, and without an exception every added entry comes from its declaration |
| SceneLoading.LoadSourced | DeadGalaxy/Core/Scene.cs:178-242 | one pass of the loop keeps every added entry tied to the declaration it came from |
| SceneLoading.TexturesStep | DeadGalaxy/Core/Scene.cs:206-219 | a texture declaration that loads adds the entry for the next kept name, and earlier entries stay |
| SceneLoading.ModelsStep | DeadGalaxy/Core/Scene.cs:220-236 | a model declaration that loads adds the entry for the next kept name, and earlier entries stay |
| EntityLoading.ResolveOne | DeadGalaxy/Core/Scene.cs:265-306 | one property value: the value written back and the error logged are those of the resolution rule; it throws exactly when the rule does |
| EntityLoading.ResolveTexture | DeadGalaxy/Core/Scene.cs:273-286 | TryGetValue, else "fallback" with the error; throws exactly when "fallback" is missing |
| EntityLoading.ResolveModel | DeadGalaxy/Core/Scene.cs:287-300 | the same for models |
| EntityLoading.ResolveProperties | DeadGalaxy/Core/Scene.cs:263-307 | the inner loop writes each resolved value back in place, stopping at the first exception, with the calls of the rule |
| EntityLoading.ResolveAt | DeadGalaxy/Core/Scene.cs:263-307 | one pass of the inner loop keeps it in step with the rule |
| EntityLoading.ResolveStops | DeadGalaxy/Core/Scene.cs:263-307 | once resolution has thrown, later properties change nothing |
| EntityLoading.Construction | DeadGalaxy/Core/Scene.cs:310-343 | only a world that loads takes handles (two: map image and chunk mesh) |
| EntityLoading.SnapshotTextureCalls | DeadGalaxy/Core/Entities/WorldEntity.cs:139-152 | a world's chunk texture calls use the textures' current values |
| EntityLoading.LoadStatic | DeadGalaxy/Core/Scene.cs:312-316 | `new StaticEntity` throws exactly when binding does and issues the binding's log; otherwise one Static renderable is appended whose name, model, position, rotation and scale are the bound values or their defaults, and the cameras and lights are unchanged |
| EntityLoading.LoadDynamic | DeadGalaxy/Core/Scene.cs:317-321 | `new DynamicEntity` throws exactly when binding does and issues the binding's log; otherwise one Dynamic renderable is appended holding the bound StaticEntity fields, and nothing else changes |
| EntityLoading.LoadWorld | DeadGalaxy/Core/Scene.cs:322-326 | `new WorldEntity` throws when binding throws or the map file is missing, with the rule's calls and handles; otherwise one World renderable is appended whose name, transform, chunk sizes, map path and textures are the bound values or their defaults |
| EntityLoading.CreateWorld | DeadGalaxy/Core/Entities/WorldEntity.cs:38-54 | the world's constructor issues the calls of the rule and yields a fresh valid world |
| EntityLoading.LoadCamera | DeadGalaxy/Core/Scene.cs:327-333 | `new CameraEntity` throws exactly when binding does; otherwise one camera is appended to the cameras and the updatables, with the bound name, position, target and IsMain or their defaults |
| EntityLoading.LoadPointLight | DeadGalaxy/Core/Scene.cs:334-338 | `new PointLightEntity` throws exactly when binding does; otherwise one point light is appended with the bound name, position, radius, intensity and colour or their defaults |
| EntityLoading.AddRenderable | DeadGalaxy/Core/Scene.cs:314-324 | HashSet.Add of a new renderable appends it |
| EntityLoading.AddCamera | DeadGalaxy/Core/Scene.cs:330-331 | a new camera joins the cameras and the updatables |
| EntityLoading.Construct | DeadGalaxy/Core/Scene.cs:310-343 | the type switch: calls, handles and exception as Construction gives them; each type appends one entity holding its bound fields to its own collection only; an unknown type logs an error and adds nothing |
| EntityLoading.MainFlags | DeadGalaxy/Core/Scene.cs:327-333 | one IsMain flag per camera declaration |
| EntityLoading.CollectedStep | DeadGalaxy/Core/Scene.cs:252-344 | one declaration keeps the collections equal to those its prefix describes |
| EntityLoading.RenderablesStep | DeadGalaxy/Core/Scene.cs:312-326 | a renderable added for a declaration has that declaration's type |
| EntityLoading.MainsStep | DeadGalaxy/Core/Scene.cs:327-333 | a camera added for a declaration carries that declaration's IsMain flag, and the earlier cameras keep theirs |
| EntityLoading.LoadEntity | DeadGalaxy/Core/Scene.cs:253-344 | one pass of the outer loop keeps it in step with the fold |
| EntityLoading.SkipUnnamed | DeadGalaxy/Core/Scene.cs:255-260 | a declaration with a null or blank name logs the bad-name error and adds nothing to the collections |
| EntityLoading.Walk | DeadGalaxy/Core/Scene.cs:252-344 | the loop runs until the declarations end or one throws, keeping the collections, the log and the handles in step with the fold |
| EntityLoading.LoadNamed | DeadGalaxy/Core/Scene.cs:263-343 | a named declaration: the calls, handles and exception of resolution then construction, and what its type adds |
| EntityLoading.LoadEntities | DeadGalaxy/Core/Scene.cs:250-345 | it throws exactly when some named declaration throws, with the fold's calls and handles; otherwise one renderable per named Static, Dynamic or World declaration, one camera per Camera declaration, one light per PointLight, all in declaration order and each holding the fields bound from its resolved properties, and two handles per world |
| EntityLoading.EntriesAfter | DeadGalaxy/Core/Scene.cs:255-343 | one more declaration adds one entry exactly when it is named and of a kind in the set |
| EntityLoading.MainsAfter | DeadGalaxy/Core/Scene.cs:327-333 | after one more declaration the cameras' IsMain flags are the bound flags of the camera declarations so far |
| EntityLoading.CamerasStep | DeadGalaxy/Core/Scene.cs:327-333 | appending a camera with the entry's bound fields keeps the cameras in step with the camera entries |
| EntityLoading.LightsStep | DeadGalaxy/Core/Scene.cs:334-338 | appending a light with the entry's bound fields keeps the lights in step with the light entries |
| EntityLoading.LoadKept | DeadGalaxy/Core/Scene.cs:263-343 | the pass for a named declaration keeps the collections and the log in step with the fold |
| EntityLoading.PopulateAll | DeadGalaxy/Core/Scene.cs:252-344 | the outer loop ends where the fold over all declarations ends |
| EntityLoading.EntityStops | DeadGalaxy/Core/Scene.cs:252-344 | once an exception has escaped, later declarations change nothing |
| EntityLoading.EntityThrows | DeadGalaxy/Core/Scene.cs:252-344 | the loop throws exactly when some named declaration throws |
| EntityLoading.StepThrows | DeadGalaxy/Core/Scene.cs:255-343 | one declaration after a clean prefix throws exactly when it is named and throws |
| EntityLoading.AnyThrowsExists | DeadGalaxy/Core/Scene.cs:252-344 | "some declaration throws" as a recursion agrees with the existential |
| EntityLoading.DeclThrows | DeadGalaxy/Core/Scene.cs:263-343 | a named declaration throws in resolution, in binding, or for a world whose map file is missing |
| EntityLoading.ConstructionThrows | DeadGalaxy/Core/Scene.cs:310-343 | the type switch throws exactly when binding throws or a world's map file is missing |
| EntityLoading.EntityHandles | DeadGalaxy/Core/Scene.cs:322-326 | without an exception, each named world takes two handles and nothing else takes any |
| EntityLoading.StepHandles | DeadGalaxy/Core/Scene.cs:322-326 | a clean pass takes two handles for a named world and none otherwise |
| SceneCreation.MainsOf | DeadGalaxy/Core/Scene.cs:85 | the IsMain flag of each camera, in order |
| SceneCreation.FirstTrue | DeadGalaxy/Core/Scene.cs:85 | FirstOrDefault(IsMain): the first set flag, with none before it; none exactly when no flag is set |
| SceneCreation.MainsOfCollected | DeadGalaxy/Core/Scene.cs:327-333 | the cameras collected from the declarations carry the flags those declarations bind |
| SceneCreation.SetMainCamera | DeadGalaxy/Core/Scene.cs:85-95 | the main camera is the first camera marked main; if none, a new default "MainCamera" is appended to the cameras and the updatables |
| SceneCreation.AllWorldTexturesCover | DeadGalaxy/Core/Scene.cs:322-326 | every texture a world declaration binds is among all the world textures |
| SceneCreation.SnapshotCovers | DeadGalaxy/Core/Scene.cs:322-326 | a snapshot of those textures covers every declaration |
| SceneCreation.Snapshot | DeadGalaxy/Core/Scene.cs:322-326 | each texture resource with the GPU texture it holds now |
| SceneCreation.Populate | DeadGalaxy/Core/Scene.cs:82-95 | LoadEntities then the main-camera rule: throws exactly when some named declaration throws; otherwise the scene is settled |
| SceneCreation.PopulateLoaded | DeadGalaxy/Core/Scene.cs:82-95 | on tables loaded without a clash, entity loading throws exactly when a named declaration throws; otherwise the scene is Constructed |
| SceneCreation.SettledMain | DeadGalaxy/Core/Scene.cs:327-333 | the main camera is the first camera declaration whose IsMain binds true |
| SceneCreation.LoadTables | DeadGalaxy/Core/Scene.cs:79 | LoadResources on a new scene, which loads no entity; every loaded entry holds the resource of its declaration |
| SceneCreation.Create | DeadGalaxy/Core/Scene.cs:74-96 | resources, then entities, then the main camera; it throws exactly when resources clash or a named declaration throws; otherwise the scene is Constructed: the tables hold "fallback" and the kept names in order, the collections hold one entity per named declaration with its bound fields, and the main camera is settled |
| SceneCreation.SceneHolder.constructor | DeadGalaxy/Core/Scene.cs:42 | no main scene at start-up |
| SceneCreation.ClearMain | DeadGalaxy/Core/Scene.cs:116 | `Main?.Clear()` empties the current main scene, if any; without a main scene no call is made, otherwise the calls are exactly the scene's disposals: the worlds' chunk-model unloads, then every texture's and every model's unload |
| SceneCreation.Install | DeadGalaxy/Core/Scene.cs:117 | `Main = scene` points the holder at the new scene and changes nothing in it, so a Constructed scene stays Constructed |
| SceneCreation.Replace | DeadGalaxy/Core/Scene.cs:116-117 | the old main scene is cleared, and its disposal calls open the call log; a constructor exception leaves it (now empty) as Main; otherwise Main is a fresh scene at the base path, Constructed from the metadata |
| SceneCreation.Load | DeadGalaxy/Core/Scene.cs:102-118 | without metadata: one error logged and nothing else, Main unchanged, no exception; with metadata: Main is cleared (its disposal calls open the call log), then kept (cleared) when the constructor throws, or replaced by a fresh scene at Data/Lvl/<name> that is Constructed from the metadata: tables of "fallback" and the kept names, entities with their bound fields, main camera settled |
| RenderingPipelines.Kinds | DeadGalaxy/Core/Rendering/RenderingPipeline.cs:71 | the kinds of the stages, position by position |
| RenderingPipelines.FlowSpec | DeadGalaxy/Core/Rendering/RenderingPipeline.cs:67-79 | a frame goes through iff every stage finds the channels it reads among those the earlier stages produced and no channel name is produced twice; the final map's keys are then all the stages' outputs in order |
| RenderingPipelines.FlowSnoc | DeadGalaxy/Core/Rendering/RenderingPipeline.cs:71-78 | the channel map after one more stage is that stage's step on the map so far |
| RenderingPipelines.FlowStops | DeadGalaxy/Core/Rendering/RenderingPipeline.cs:71-78 | once a stage has thrown, the whole frame has thrown |
| RenderingPipelines.GeometryStep | DeadGalaxy/Core/Rendering/GeometryStage.cs:86 | with a scene, the geometry stage starts an empty map with its four channels |
| RenderingPipelines.LightingStep | DeadGalaxy/Core/Rendering/PointLightingStage.cs:103-159 | with a scene, the lighting stage finds its four inputs among the geometry channels and adds lighting |
| RenderingPipelines.ReadersStep | DeadGalaxy/Core/Rendering/FinalStage.cs:60-71 | the composite and overlay stages find what they read among the five scene channels and add nothing |
| RenderingPipelines.SceneChannelsAre | DeadGalaxy/Core/Rendering/GeometryStage.cs:45-50 | a frame with a scene carries diffuse, normal, specular, depth and lighting, in that order |
| RenderingPipelines.EngineFlow | DeadGalaxy/Core/Engine.cs:45-50 | with the engine's order and a scene, the keys go {diffuse, normal, specular, depth}, then + lighting, then unchanged twice; no key repeats and no lookup fails |
| RenderingPipelines.GeometryThenLighting | DeadGalaxy/Core/Engine.cs:46-47 | geometry then lighting with a scene yields the four geometry channels and then the five scene channels |
| RenderingPipelines.EngineOrderFlow | DeadGalaxy/Core/Engine.cs:45-50 | the engine's own stage list renders a frame with a scene without throwing and ends with the five scene channels |
| RenderingPipelines.FlowAt | DeadGalaxy/Core/Rendering/RenderingPipeline.cs:71-78 | a stage that goes through extends the frame's map by its step |
| RenderingPipelines.NoSceneThrows | DeadGalaxy/Core/Rendering/RenderingPipeline.cs:67-79 | without a main scene, geometry and lighting hand on nothing and the composite stage then throws on the missing diffuse channel (Engine.Run never renders such a frame) |
| RenderingPipelines.EngineOrderNoScene | DeadGalaxy/Core/Engine.cs:63-66 | the engine's list would throw on a frame without a scene, which is why the loop skips those frames |
| RenderingPipelines.LightingFirstThrows | DeadGalaxy/Core/Rendering/PointLightingStage.cs:103-113 | a lighting stage with nothing before it throws on its missing inputs |
| RenderingPipelines.GeometryTwiceThrows | DeadGalaxy/Core/Rendering/RenderingPipeline.cs:76 | two geometry stages produce the same channel names twice, so Dictionary.Add throws |
| RenderingPipelines.Merge | DeadGalaxy/Core/Rendering/RenderingPipeline.cs:74-77 | adding a stage's outputs one by one throws iff a key would repeat; otherwise the map is the old entries followed by the outputs |
| RenderingPipelines.RenderStage | DeadGalaxy/Core/Rendering/IRenderingStage.cs:34 | a stage throws iff a channel it reads is missing, and otherwise hands on exactly its output channels |
| RenderingPipelines.RenderLighting | DeadGalaxy/Core/Rendering/PointLightingStage.cs:88-160 | the lighting stage throws iff there is a scene and one of its four inputs is missing; it hands on lighting with a scene and nothing without |
| RenderingPipelines.RenderFinal | DeadGalaxy/Core/Rendering/FinalStage.cs:50-72 | the composite stage hands on nothing and throws iff diffuse or lighting is missing |
| RenderingPipelines.RenderDebug | DeadGalaxy/Core/Rendering/DebugStage.cs:38-63 | the overlay stage hands on nothing and throws iff debug:rendering is set and one of its five inputs is missing |
| RenderingPipelines.RenderingPipeline.constructor | DeadGalaxy/Core/Rendering/RenderingPipeline.cs:31-36 | the pipeline keeps the stages and its DefaultShader is the first stage's shader, so the list must not be empty |
| RenderingPipelines.RenderingPipeline.Render | DeadGalaxy/Core/Rendering/RenderingPipeline.cs:67-79 | each frame starts from an empty map and runs the stages in order; it throws iff Flow of the stage kinds fails, and otherwise the map's keys are the flow's channels; the stages and the scene stay valid |
| RenderingPipelines.RenderingPipeline.Advance | DeadGalaxy/Core/Rendering/RenderingPipeline.cs:73-77 | one turn of the loop keeps the map equal to the flow of the stages so far, or reports that the flow has failed |
| RenderingPipelines.RenderingPipeline.RenderAt | DeadGalaxy/Core/Rendering/RenderingPipeline.cs:73 | stage i throws iff a channel it reads is missing and otherwise hands on its outputs; the other stages stay valid |
| RenderingPipelines.PipelineHolder.constructor | DeadGalaxy/Core/Rendering/RenderingPipeline.cs:41 | no pipeline exists at start-up |
| RenderingPipelines.PipelineHolder.Init | DeadGalaxy/Core/Rendering/RenderingPipeline.cs:52-62 | a second Init only logs the warning and keeps the first pipeline; the first builds a pipeline over the stages, and an empty stage list throws and leaves none |
| RenderBuffers.RenderBuffer.constructor | DeadGalaxy/Core/Rendering/RenderBuffer.cs:26-32 | a new buffer has no channel, size 0 × 0 and nothing allocated |
| RenderBuffers.RenderBuffer.RegisterTexture | DeadGalaxy/Core/Rendering/RenderBuffer.cs:44-51 | the channel is appended with its format and one mip level, without any check of its name |
| RenderBuffers.RenderBuffer.BeginBufferMode | DeadGalaxy/Core/Rendering/RenderBuffer.cs:56-85 | the stored size becomes the screen size; the buffer is reallocated exactly when the size changed (and not otherwise); then it is bound with depth test and depth writes on and blending off, and cleared; channel names and formats are kept |
| RenderBuffers.RenderBuffer.Fit | DeadGalaxy/Core/Rendering/RenderBuffer.cs:58-70 | the reallocation happens exactly when the stored size differs from the screen's, which is always the case at 0 × 0 before the first frame |
| RenderBuffers.EnterBuffer | DeadGalaxy/Core/Rendering/RenderBuffer.cs:73-84 | flush, bind the framebuffer, depth test on, blending off, depth writes on, clear |
| RenderBuffers.RenderBuffer.EndBufferMode | DeadGalaxy/Core/Rendering/RenderBuffer.cs:90-102 | flush, unbind, depth test off, blending on, depth writes off: the bracket BeginBufferMode opened is closed |
| RenderBuffers.RenderBuffer.Initialize | DeadGalaxy/Core/Rendering/RenderBuffer.cs:107-158 | an allocated buffer first frees its framebuffer and textures; a new framebuffer, one texture per channel at the new size and a depth buffer are allocated, attached, checked and unbound; the old depth buffer is never freed |
| RenderBuffers.RenderBuffer.Release | DeadGalaxy/Core/Rendering/RenderBuffer.cs:110-120 | only an allocated buffer frees anything: its framebuffer and each channel texture, not its depth buffer |
| RenderBuffers.ReleasesOnlyExisting | DeadGalaxy/Core/Rendering/RenderBuffer.cs:110-120 | nothing is freed exactly when no framebuffer was allocated; otherwise the framebuffer and every texture are |
| RenderBuffers.UnloadTextures | DeadGalaxy/Core/Rendering/RenderBuffer.cs:116-119 | each channel texture is unloaded once, in list order |
| RenderBuffers.UnloadsEach | DeadGalaxy/Core/Rendering/RenderBuffer.cs:116-119 | one unload per texture, the k-th for the k-th |
| RenderBuffers.IdsStep | DeadGalaxy/Core/Rendering/RenderBuffer.cs:116-119 | one more texture adds its id and its unload |
| RenderBuffers.IdsBelow | DeadGalaxy/Core/Rendering/RenderBuffer.cs:145 | ids allocated before the depth buffer are not the depth buffer's |
| RenderBuffers.RenderBuffer.Open | DeadGalaxy/Core/Rendering/RenderBuffer.cs:123-127 | a new framebuffer at the stored size, bound, with one draw buffer per channel |
| RenderBuffers.RenderBuffer.AttachTextures | DeadGalaxy/Core/Rendering/RenderBuffer.cs:130-142 | every channel keeps its name and format, gets the new size and a fresh id, and is attached to its own colour slot, in order |
| RenderBuffers.RenderBuffer.AttachOne | DeadGalaxy/Core/Rendering/RenderBuffer.cs:132-141 | channel i alone is rewritten: new size, fresh id, attached to colour slot i |
| RenderBuffers.AttachCallsStep | DeadGalaxy/Core/Rendering/RenderBuffer.cs:130-142 | one more channel appends its allocation and attachment |
| RenderBuffers.AttachCallsInOrder | DeadGalaxy/Core/Rendering/RenderBuffer.cs:130-142 | texture i is allocated with id fb + 1 + i at the new size with its own format and mip count, and attached to colour slot i |
| RenderBuffers.RenderBuffer.Close | DeadGalaxy/Core/Rendering/RenderBuffer.cs:145-157 | a depth buffer is allocated and attached, completeness is checked and the framebuffer unbound |
| RenderBuffers.RenderBuffer.Build | DeadGalaxy/Core/Rendering/RenderBuffer.cs:123-157 | the whole allocation: framebuffer, channel textures and depth buffer, in that order of handles, all live afterwards |
| RenderBuffers.CheckComplete | DeadGalaxy/Core/Rendering/RenderBuffer.cs:151-154 | the error is logged exactly when the framebuffer is incomplete |
| GeometryStages.GeometryChannelsDistinct | DeadGalaxy/Core/Rendering/GeometryStage.cs:47-50 | the four registered channel names are distinct, so the buffer's Textures never throws for this stage |
| GeometryStages.GeometryStage.constructor | DeadGalaxy/Core/Rendering/GeometryStage.cs:32-51 | one shader is loaded, viewPos looked up, and the buffer registers diffuse, normal, specular and depth with their formats, nothing allocated |
| GeometryStages.GeometryStage.Render | DeadGalaxy/Core/Rendering/GeometryStage.cs:62-87 | with no main scene: empty output, no call; otherwise viewPos is uploaded, the scene is drawn inside the buffer's and the camera's bracket, and the output is the four channels; the input is not read |
| GeometryStages.GeometryStage.Pass | DeadGalaxy/Core/Rendering/GeometryStage.cs:76-84 | the buffer is fitted to the screen and the scene drawn inside both brackets |
| PointLightingStages.SlotNamesDistinct | DeadGalaxy/Core/Rendering/PointLightingStage.cs:60-63 | `lights[i].field` names are equal exactly when slot and field are |
| PointLightingStages.BuildSlotTable | DeadGalaxy/Core/Rendering/PointLightingStage.cs:58-66 | exactly MaxLights (10) slots, slot i holding the four locations of `lights[i]` |
| PointLightingStages.NewLightingBuffer | DeadGalaxy/Core/Rendering/PointLightingStage.cs:69-70 | the buffer registers the single "lighting" channel, nothing allocated |
| PointLightingStages.LoadLightModel | DeadGalaxy/Core/Rendering/PointLightingStage.cs:73-75 | the light model is one unit sphere with one material using the stage's shader |
| PointLightingStages.PointLightingStage.constructor | DeadGalaxy/Core/Rendering/PointLightingStage.cs:42-76 | shader, three uniform locations, the 10-slot table, the lighting buffer and the sphere model, in the source's order |
| PointLightingStages.WithMaps | DeadGalaxy/Core/Rendering/PointLightingStage.cs:103-113 | binding inputs changes neither the meshes nor the number of materials |
| PointLightingStages.BindOneMore | DeadGalaxy/Core/Rendering/PointLightingStage.cs:103-113 | one more found input binds its own map with one SetMaterialTexture |
| PointLightingStages.BindStep | DeadGalaxy/Core/Rendering/PointLightingStage.cs:103-113 | one lookup keeps the model and the calls in line with the inputs found so far |
| PointLightingStages.Finish | DeadGalaxy/Core/Rendering/PointLightingStage.cs:103-113 | the lookups end after all four or at the first missing one, and what they leave is what all four leave |
| PointLightingStages.InputMapsDistinct | DeadGalaxy/Core/Rendering/PointLightingStage.cs:104-113 | each input fills its own material map |
| PointLightingStages.WithMapsHolds | DeadGalaxy/Core/Rendering/PointLightingStage.cs:103-113 | map k holds the k-th found input; the material's shader and the other materials are unchanged |
| PointLightingStages.InputsReachLightModel | DeadGalaxy/Core/Rendering/PointLightingStage.cs:103-113 | with all four present, the light model samples diffuse, normal, specular and depth (as the height map), each the geometry channel of that name |
| PointLightingStages.PointLightingStage.BindInput | DeadGalaxy/Core/Rendering/PointLightingStage.cs:103-104 | one lookup: a missing name throws before anything changes; otherwise its map is bound |
| PointLightingStages.PointLightingStage.BindNext | DeadGalaxy/Core/Rendering/PointLightingStage.cs:103-113 | lookup i after the first i succeeded keeps the binding in step |
| PointLightingStages.PointLightingStage.BindInputs | DeadGalaxy/Core/Rendering/PointLightingStage.cs:103-113 | the four lookups in order; it throws exactly when a name is missing, after binding the ones before it |
| PointLightingStages.UploadCallsStep | DeadGalaxy/Core/Rendering/PointLightingStage.cs:117-138 | one more light appends its four uploads to the next slot |
| PointLightingStages.LightInOwnSlot | DeadGalaxy/Core/Rendering/PointLightingStage.cs:125-135 | light k's position, radius, intensity and color go to slot k's locations and nowhere else |
| PointLightingStages.UploadLights | DeadGalaxy/Core/Rendering/PointLightingStage.cs:116-138 | the first MaxLights lights, in order, are uploaded and collected; all of them when there are at most 10 |
| PointLightingStages.PointLightingStage.Upload | DeadGalaxy/Core/Rendering/PointLightingStage.cs:116-141 | the selected lights are uploaded, then their count |
| PointLightingStages.DrawLights | DeadGalaxy/Core/Rendering/PointLightingStage.cs:149-152 | each selected light's sphere is drawn once, at its position, scaled by its radius |
| PointLightingStages.LightPassLayout | DeadGalaxy/Core/Rendering/PointLightingStage.cs:145-156 | 3D mode on, culling off, the draws, culling on, 3D mode off |
| PointLightingStages.LightPassDraws | DeadGalaxy/Core/Rendering/PointLightingStage.cs:149-152 | every selected light is drawn exactly once in order, and nothing but those draws is a model draw |
| PointLightingStages.LightPassCulling | DeadGalaxy/Core/Rendering/PointLightingStage.cs:146-155 | culling is off exactly around the light draws, inside the camera's 3D mode |
| PointLightingStages.DrawPass | DeadGalaxy/Core/Rendering/PointLightingStage.cs:145-156 | the camera bracket, culling switches and draws, in that order |
| PointLightingStages.PointLightingStage.Pass | DeadGalaxy/Core/Rendering/PointLightingStage.cs:144-157 | the buffer is fitted to the screen and the lights drawn inside its bracket |
| PointLightingStages.PointLightingStage.Render | DeadGalaxy/Core/Rendering/PointLightingStage.cs:87-160 | with no main scene: empty output, no call; otherwise it throws exactly when one of diffuse, normal, specular, depth is missing; without an exception the first 10 lights are uploaded and drawn and the output is the lighting channel |
| PointLightingStages.PointLightingStage.Lit | DeadGalaxy/Core/Rendering/PointLightingStage.cs:96-159 | the same, given the main scene |
| PointLightingStages.PointLightingStage.Prepare | DeadGalaxy/Core/Rendering/PointLightingStage.cs:97-113 | viewPos and screenSize uploads, then the four lookups |
| PointLightingStages.PointLightingStage.Light | DeadGalaxy/Core/Rendering/PointLightingStage.cs:116-159 | light uploads, count, the light pass in the buffer, and the lighting channel as output |
| FinalStages.CompositeCases | DeadGalaxy/Core/Rendering/FinalStage.cs:54-69 | the calls for none, one or both inputs found: a missing diffuse stops after entering the shader mode, a missing lighting after uploading diffuse |
| FinalStages.CompositeShape | DeadGalaxy/Core/Rendering/FinalStage.cs:54-69 | with both inputs: clear first, and the shader mode brackets the two uploads (diffuse, lighting) and exactly one draw, the diffuse texture flipped vertically |
| FinalStages.FinalStage.constructor | DeadGalaxy/Core/Rendering/FinalStage.cs:37-45 | one fragment-only shader and its two texture locations |
| FinalStages.FinalStage.Render | DeadGalaxy/Core/Rendering/FinalStage.cs:51-72 | the output is always empty; it throws exactly when diffuse or lighting is missing, leaving the shader mode on; otherwise the shader mode ends off and nothing else changes |
| FinalStages.FinalStage.Open | DeadGalaxy/Core/Rendering/FinalStage.cs:54-57 | clear, then enter the shader mode |
| FinalStages.FinalStage.Bind | DeadGalaxy/Core/Rendering/FinalStage.cs:62-63 | one texture uploaded to one location |
| FinalStages.FinalStage.Close | DeadGalaxy/Core/Rendering/FinalStage.cs:66-69 | the one flipped draw, then leave the shader mode |
| ForwardStages.ForwardStage.constructor | DeadGalaxy/Core/Rendering/ForwardStage.cs:28-33 | the stage's shader is the default material's |
| ForwardStages.ForwardStage.Render | DeadGalaxy/Core/Rendering/ForwardStage.cs:44-63 | the output is always empty and the input unread; with a main scene the scene is drawn inside the camera's 3D mode, which ends off; without one nothing happens |
| DebugStages.VersionTextSpec | DeadGalaxy/Core/Rendering/DebugStage.cs:94-98 | the label is "ver. " followed by the informational version, or "ver. unknown" when the attribute is absent |
| DebugStages.DebugCallsShape | DeadGalaxy/Core/Rendering/DebugStage.cs:38-63 | the FPS counter is drawn iff debug:fps is set, and first; thumbnail k shows the k-th channel read; when no channel is missing the pass ends with the version label |
| DebugStages.ThumbnailsRead | DeadGalaxy/Core/Rendering/DebugStage.cs:71-83 | each thumbnail texture is the value stored under its channel name, and all five are read iff diffuse, normal, specular, depth and lighting are all present |
| DebugStages.DebugStage.constructor | DeadGalaxy/Core/Rendering/DebugStage.cs:32 | the stage's shader is the empty shader new Shader() |
| DebugStages.DebugStage.Render | DeadGalaxy/Core/Rendering/DebugStage.cs:38-63 | the output is always empty; it throws iff debug:rendering is set and a channel is missing; the calls are DebugCalls of the settings, the thumbnails read, the console's draws and the version label; the GPU state is unchanged |
| DebugStages.DebugStage.Draw | DeadGalaxy/Core/Rendering/DebugStage.cs:40-60 | the same pass for given settings: the counter, then the thumbnails, then, unless a channel was missing, the console and the version label |
| DebugStages.DebugStage.DrawFpsIf | DeadGalaxy/Core/Rendering/DebugStage.cs:40-43 | DrawFPS(8, 8) is issued iff debug:fps is set |
| DebugStages.DebugStage.DrawTail | DeadGalaxy/Core/Rendering/DebugStage.cs:50-60 | the console is drawn iff debug:console is set and the console exists and is shown; then the version label is always drawn |
| DebugStages.DebugStage.DrawRenderingDebug | DeadGalaxy/Core/Rendering/DebugStage.cs:69-84 | the channels are read in the order diffuse, normal, specular, depth, lighting, each drawn as soon as it is read; it throws exactly when one is missing, after drawing the ones before it |
| DebugStages.DebugStage.DrawGameVersion | DeadGalaxy/Core/Rendering/DebugStage.cs:89-99 | exactly one text draw: the version label 28 pixels above the bottom of the window |
| Gui.GuiMode.constructor | DeadGalaxy/Core/Helpers/GuiHelpers.cs:24 | the counter starts at 0, so the program starts outside GUI mode |
| Gui.GuiMode.SetGuiMode | DeadGalaxy/Core/Helpers/GuiHelpers.cs:38-64 | the counter moves by one step of NextCounter and stays non-negative; the one cursor call enables the cursor iff the program is in GUI mode afterwards |
| Gui.CounterRules | DeadGalaxy/Core/Helpers/GuiHelpers.cs:41-53 | opening adds exactly one; closing removes one with a floor at 0; the counter is never negative |
| Gui.CounterAfterBounds | DeadGalaxy/Core/Helpers/GuiHelpers.cs:41-53 | after any run of calls the counter is non-negative, at most the start plus the opens, and at least the start plus the opens minus the closes |
| CollectionExtensions.ClearWithDispose | DeadGalaxy/Core/Helpers/CollectionExtensions.cs:30-43 | every disposable element is disposed in enumeration order, non-disposable ones are untouched, every world ends with no chunks, and the collection is empty afterwards |
| CollectionExtensions.DisposeItem | DeadGalaxy/Core/Helpers/CollectionExtensions.cs:35-38 | element i is disposed iff it is IDisposable, and disposing it leaves what the later elements will do unchanged |
| CollectionExtensions.DisposeWorldItem | DeadGalaxy/Core/Helpers/CollectionExtensions.cs:35-38 | a world element disposes its chunk models and empties its chunk set |
| CollectionExtensions.DisposeOtherItem | DeadGalaxy/Core/Helpers/CollectionExtensions.cs:35-38 | a texture or model element is unloaded; any other element makes no call |
| CollectionExtensions.ClearValuesWithDispose | DeadGalaxy/Core/Helpers/CollectionExtensions.cs:51-64 | only the values are disposed, once per entry and in enumeration order, never the keys; the dictionary is empty afterwards |
| CollectionExtensions.NothingDisposable | DeadGalaxy/Core/Helpers/CollectionExtensions.cs:35 | a collection with no disposable element is cleared without a single call |
| CollectionExtensions.TexturesUnloadedInOrder | DeadGalaxy/Core/Helpers/CollectionExtensions.cs:33-39 | a texture collection's clear is one UnloadTexture per element, in order, once per occurrence |
| CollectionExtensions.ModelsUnloadedInOrder | DeadGalaxy/Core/Helpers/CollectionExtensions.cs:54-60 | a model table's clear is one UnloadModel per entry, in order, so a model stored under two names is unloaded twice |
| CollectionExtensions.FootprintKinds | DeadGalaxy/Core/Helpers/CollectionExtensions.cs:33-39 | clearing touches only resources and worlds |
| Common.SplitJoin | DeadGalaxy/Core/Console.cs:266 | `command.Split(' ')` loses nothing: joining its pieces with the separator gives the command back, and (by Split's own ensures) there is at least one piece and no piece holds a space |
| DebugConsole.RemoveFirst | DeadGalaxy/Core/Console.cs:310 | List.Remove leaves a list without the command unchanged, makes a list holding it one shorter, and adds no element |
| DebugConsole.RemoveFirstNoDup | DeadGalaxy/Core/Console.cs:310 | on a history without repetitions, removing the command keeps it free of repetitions, drops the command and keeps every other entry |
| DebugConsole.RememberedSpec | DeadGalaxy/Core/Console.cs:309-311 | after Remove then Add the command is the newest entry, the history has no repetitions, holds exactly the old entries and the command, grows only for a new command, and remembering it again changes nothing |
| DebugConsole.HandleKeysInRange | DeadGalaxy/Core/Console.cs:138-200 | the history index stays within 0..count, so history[^index] never throws, and a submitted command is the trimmed prompt text and is not blank |
| DebugConsole.UpDownRoundTrip | DeadGalaxy/Core/Console.cs:145-168 | Up then Down, and Down then Up, return to the same history entry away from the ends |
| DebugConsole.UpsReachOldest | DeadGalaxy/Core/Console.cs:145-149 | n presses of Up from index i reach min(i + n, count) |
| DebugConsole.DownShowsNewest | DeadGalaxy/Core/Console.cs:164-170 | Down from index 0 or 1 shows the newest history entry |
| DebugConsole.TypedErased | DeadGalaxy/Core/Console.cs:176-207 | Backspace removes an accepted character again, a refused character leaves the text unchanged, and Backspace on empty text does nothing |
| DebugConsole.EnterClearsOrSubmits | DeadGalaxy/Core/Console.cs:189-200 | Enter on blank text only clears it; otherwise it submits the trimmed text, which is not blank |
| DebugConsole.ParseIgnoresCase | DeadGalaxy/Core/Console.cs:266-267 | commands whose keywords are equal ignoring case, with the same arguments, parse to the same command |
| DebugConsole.Reply | DeadGalaxy/Core/Console.cs:268-307 | help logs three Info lines; a wrong syntax or an unknown command logs one Warning line |
| DebugConsole.RunSet | DeadGalaxy/Core/Console.cs:288-301 | set stores the value under the key when a configuration exists, then runs Update, and on success ends with the Info line "path = value"; the main scene stays valid and unchanged |
| DebugConsole.RunLoad | DeadGalaxy/Core/Console.cs:284 | load leaves the configuration alone; with the metadata missing it logs exactly the one error and keeps the scene without throwing; otherwise an exception keeps the (cleared) scene and success installs a fresh main scene at Data/Lvl/<name> |
| DebugConsole.Perform | DeadGalaxy/Core/Console.cs:266-307 | the switch has the command's `Effect` on the configuration, the main scene and the calls: help, a wrong syntax and an unknown command log their Reply and cannot throw; set stores the value under its key and, unless it throws, ends with its confirmation; load without metadata logs the one error and keeps the scene, and with metadata keeps the scene on an exception or installs a fresh scene at Data/Lvl/<name>; only load replaces the scene and only set changes the configuration |
| DebugConsole.Answer | DeadGalaxy/Core/Console.cs:269-306 | the commands that only log append exactly their Reply |
| DebugConsole.Prefix | DeadGalaxy/Core/Console.cs:326-334 | the level prefix is empty exactly for Info and the unnamed levels, and is otherwise a bracketed name followed by a space |
| DebugConsole.LogLineParts | DeadGalaxy/Core/Console.cs:336 | a log line starts with the bracketed time stamp and ends with the whole message |
| DebugConsole.Recent | DeadGalaxy/Core/Console.cs:252 | TakeLast(8) is the last min(8, n) lines of the log, in order |
| DebugConsole.ConsoleShowsNewest | DeadGalaxy/Core/Console.cs:218-257 | Render draws the backdrop, the prompt box in the prompt's colour and the prompt text, then one text per recent line (at most eight), line k at y = 16 + 24k |
| DebugConsole.Draw | DeadGalaxy/Core/Console.cs:253-256 | the loop issues exactly the given draws, in order, and changes no GPU state |
| DebugConsole.Console.constructor | DeadGalaxy/Core/Console.cs:49-59 | a new console is hidden, with an empty prompt and history; its log holds the banner, and LogMessage is installed as raylib's log callback |
| DebugConsole.Console.Render | DeadGalaxy/Core/Console.cs:218-257 | the draws appended are ConsoleCalls of the screen size, the prompt state, the caption and the log; the GPU state is unchanged |
| DebugConsole.Console.LogMessage | DeadGalaxy/Core/Console.cs:319-337 | a missing or blank message is dropped; any other message adds exactly one line: stamp, level prefix, message |
| DebugConsole.Console.ProcessCommand | DeadGalaxy/Core/Console.cs:263-314 | the parsed command has its `Effect` (as Perform: the stored setting, the scene loaded or the error logged, a fresh scene on a successful load), then unless it threw the command becomes the newest history entry with the index reset to 0; the history keeps no repetitions |
| DebugConsole.Console.Remember | DeadGalaxy/Core/Console.cs:309-313 | the history becomes Remembered(history, command), the index is 0, the command is the newest entry and the entries are the old ones plus the command |
| DebugConsole.Console.Toggle | DeadGalaxy/Core/Console.cs:104-113 | F1 flips Shown, focuses the prompt, clears hover, resets the index, and passes the new Shown to SetGuiMode (counter and cursor call) |
| DebugConsole.Console.Edit | DeadGalaxy/Core/Console.cs:128-212 | the prompt and history end as HandleKeys prescribes: an edit changes only the prompt and draws nothing; a submit clears the prompt and remembers the command unless processing threw |
| DebugConsole.Console.EditPrompt | DeadGalaxy/Core/Console.cs:128-212 | every key but a submitting Enter yields the prompt HandleKeys computes and leaves the history alone |
| DebugConsole.Console.Enter | DeadGalaxy/Core/Console.cs:189-200 | blank text is cleared and nothing runs; other text is processed trimmed, then cleared and remembered, and an exception leaves the prompt and history as they were |
| DebugConsole.Console.Update | DeadGalaxy/Core/Console.cs:89-213 | F1 toggles Shown; a hidden console changes nothing else; a shown one takes the frame's hover, then reacts to the keys as HandleKeys says; the log gains, in order, the line of every reported, non-blank message the frame traced, when the console's LogMessage is the registered callback |
| DebugConsole.Console.Respond | DeadGalaxy/Core/Console.cs:89-212 | the frame without the log callback: the toggle, then the keys as HandleKeys says; the calls only grow |
| DebugConsole.Console.Echo | DeadGalaxy/Core/Helpers/RaylibHelpers.cs:64-70 | the messages raylib reports reach LogMessage through the stored callback; the log gains exactly the Echoed lines |
| DebugConsole.Echoed | DeadGalaxy/Core/Console.cs:319-337 | at most one line per call, and none unless the console's LogMessage is the registered callback |
| DebugConsole.EchoedAppend | DeadGalaxy/Core/Console.cs:319-337 | the lines of two runs of calls are the lines of the first then those of the second |
| DebugConsole.EchoedAll | DeadGalaxy/Core/Console.cs:319-337 | with LogMessage registered, every reported trace with a non-blank message yields its line, in order, with its level's prefix |
| DebugConsole.ReplyEchoed | DeadGalaxy/Core/Console.cs:58 | the replies to help, a wrong syntax and an unknown command all reach the console's log |
| DebugConsole.EchoOfShown | DeadGalaxy/Core/Console.cs:319-337 | a reported, non-blank trace yields exactly its log line |
| DebugConsole.Console.HandleFrame | DeadGalaxy/Core/Console.cs:115-212 | a hidden console ignores the frame; a shown one behaves as HandleKeys on the prompt with this frame's hover |
| DebugConsole.ConsoleHolder.constructor | DeadGalaxy/Core/Console.cs:64 | no console exists at start-up |
| DebugConsole.ConsoleHolder.Init | DeadGalaxy/Core/Console.cs:74-84 | a second Init only logs the warning and keeps the first console; the first creates a valid hidden console with the banner and the log callback |
| Configuration.GetIntIsStoredOrDefault | DeadGalaxy/Core/Configuration.cs:59-74 | Get yields the type default when there is no configuration, the key is missing or the stored text does not parse, and the stored number otherwise |
| Configuration.ConvertIntReadsBothBases | DeadGalaxy/Core/Configuration.cs:59-74 | decimal text reads as its number and "0x" text as the hexadecimal number |
| Configuration.ParseHex | DeadGalaxy/Core/Configuration.cs:59-74 | a hexadecimal setting, when it reads, is a 32-bit value |
| Configuration.FilterOfCode | DeadGalaxy/Core/Configuration.cs:263 | a numeric filter setting names a member exactly for 0..5, and any other number is kept as it is |
| Configuration.NewTokenType | DeadGalaxy/Core/Configuration.cs:353-367 | the new token keeps the existing token's type, except that an integer token written with a '.' becomes a float; for every other type the text "null" becomes JSON null and anything else a string; only the value-type conversions can throw |
| Configuration.UpdateDispatch | DeadGalaxy/Core/Configuration.cs:100-136 | width and height both select the screen-size rule, filtering and mipmaps both select the filtering rule, and exactly the paths outside the switch select nothing |
| Configuration.FpsTargetRule | DeadGalaxy/Core/Configuration.cs:239-248 | the target is the configured value iff it is at least 30 (or 0), and otherwise 0, so it is never between 1 and 29 |
| Configuration.CsDiv | DeadGalaxy/Core/Configuration.cs:180-181 | C# integer division truncates toward zero: Euclidean division on non-negative operands, the negated quotient of the negation otherwise |
| Configuration.ScreenPlacementRule | DeadGalaxy/Core/Configuration.cs:172-185 | either dimension below 1 replaces both with the monitor-derived size; the window is centred to within one pixel on each axis, with a negative offset exactly when the window is larger than the monitor |
| Configuration.FullscreenConverges | DeadGalaxy/Core/Configuration.cs:199-205 | after ApplyFullscreen the window's fullscreen state is the configured one, and a second application issues no call |
| Configuration.FpsLockApplied | DeadGalaxy/Core/Configuration.cs:231-249 | ApplyFpsLock makes exactly one SetTargetFPS, with 0 or a value of at least 30, the configured value when it is at least 30, and 0 when the setting is missing |
| Configuration.FullscreenIdempotent | DeadGalaxy/Core/Configuration.cs:191-206 | applying the fullscreen setting twice toggles at most once |
| Configuration.Config.constructor | DeadGalaxy/Core/Configuration.cs:32 | no configuration exists at start-up |
| Configuration.Config.Init | DeadGalaxy/Core/Configuration.cs:38-51 | the first call builds the store from settings.json overlaid by the command line; a second call only logs the warning and keeps the first store |
| Configuration.Config.Set | DeadGalaxy/Core/Configuration.cs:81-92 | without a configuration nothing changes; otherwise the text is stored under the path and the file token is rewritten as UpdatedFile says, which may throw |
| Configuration.Config.UpdateFile | DeadGalaxy/Core/Configuration.cs:321-369 | the file changes as UpdatedFile says: only an existing token at the dotted path is replaced, by the converted value, or the conversion throws |
| Configuration.UpdateFileRewritesOnly | DeadGalaxy/Core/Configuration.cs:345-369 | the file's token paths never change, every other token is unchanged, and a missing token leaves the file as it was without throwing |
| Configuration.Config.ApplyFpsLock | DeadGalaxy/Core/Configuration.cs:231-249 | without a configuration nothing happens; a setting that does not read throws without a call; otherwise the one call FpsLockCalls gives |
| Configuration.Config.ApplyFullscreen | DeadGalaxy/Core/Configuration.cs:191-206 | toggles only when the window's state differs from the setting; nothing without a configuration; throws on an unreadable setting |
| Configuration.Config.ApplyVsync | DeadGalaxy/Core/Configuration.cs:211-226 | sets or clears the VSync hint as configured; nothing without a configuration; throws on an unreadable setting |
| Configuration.Config.ApplyScreenSize | DeadGalaxy/Core/Configuration.cs:155-186 | sets the window size and then its position as ScreenPlacement gives for the current monitor; nothing without a configuration; throws on an unreadable dimension |
| ConfigurationUpdate.FilterCallsAppend | DeadGalaxy/Core/Configuration.cs:265-269 | the filter calls of two call lists one after the other are those of each, in order |
| ConfigurationUpdate.FilteringSetsEachFilter | DeadGalaxy/Core/Configuration.cs:265-269 | the foreach sets every texture's filter exactly once, in enumeration order, to the configured filter on the texture as its mipmaps left it |
| ConfigurationUpdate.RemippedIdempotent | DeadGalaxy/Core/Configuration.cs:262-269 | re-applying the same mipmaps setting to the scene's textures changes nothing further |
| ConfigurationUpdate.FilterOne | DeadGalaxy/Core/Configuration.cs:267-268 | SetMipmaps and then SetFiltering on one texture resource |
| ConfigurationUpdate.FilterAll | DeadGalaxy/Core/Configuration.cs:265-269 | every texture is remipped and refiltered in enumeration order, and only the textures and the device change |
| ConfigurationUpdate.DistinctTextures | DeadGalaxy/Core/Scene.cs:217 | the texture resources of a scene are distinct objects, each created once |
| ConfigurationUpdate.ApplyFiltering | DeadGalaxy/Core/Configuration.cs:254-270 | nothing without a configuration or a main scene; throws before any texture changes when a setting does not read; otherwise each texture of the main scene gets the mipmaps and then the filter setting |
| ConfigurationUpdate.UpdateCallsRule | DeadGalaxy/Core/Configuration.cs:100-136 | unknown paths and the music and effects volumes change nothing; width and height run the same rule, as do filtering and mipmaps; without a configuration no path changes anything |
| ConfigurationUpdate.ApplyMasterVolume | DeadGalaxy/Core/Configuration.cs:275-284 | sets the master volume to the configured value; nothing without a configuration; throws on an unreadable value |
| ConfigurationUpdate.ApplySetting | DeadGalaxy/Core/Configuration.cs:100-136 | every rule other than filtering makes exactly the calls UpdateCalls gives for its path |
| ConfigurationUpdate.Update | DeadGalaxy/Core/Configuration.cs:98-137 | Update makes exactly the calls of the rule its path selects, and only the filtering rule touches the scene's textures |

## Left out

- Floating-point arithmetic. Positions, colours, radii and volumes are `real` values that are carried but never computed with.
  - The model matrix Scale × RotateXYZ × Translate is an abstract value (`ModelResource.cs:94-99`).
  - `ColorNormalize` in the light upload is not modelled (`PointLightingStage.cs:133`).
  - The 0.8 factor on the monitor size in the screen placement is not modelled (`Configuration.cs:175-176`).
  - The thumbnail rectangles of the debug stage are not modelled (`DebugStage.cs:73-83`).
- The console's caret timer and the `MeasureText` loop that shortens the prompt from the left (`Console.cs:92-101`, `Console.cs:232-245`). They are foreign measurement and timing. `Console.Render` takes the prompt text as drawn as a parameter.
- File system and JSON. Each of these is left out because it is I/O.
  - `SceneMetadata.Load` is a function parameter from a scene path to its decoded metadata, with none for a missing file.
  - `File.Exists` is a function parameter.
  - The configuration file is a map from dotted token paths to typed tokens. The JSON reading and writing in `UpdateFile`, its `lock`, and the branch where the file is not a JSON object are not modelled.
  - The log-file append in `DumpLines` and the `DateTime.Now` stamps are not modelled. The log lines kept in memory are modelled.
- Reflection. `GetProperties` and `SetValue` are replaced by a per-entity-kind table of bindable fields. `ChangeType`/`ToObject` is an abstract `Converter` that either yields a value of the target type or throws.
- The culture-dependent parsers for float, `DateTime` and `TimeSpan` are oracles in `Parsers`.
- Native results are oracles of the `Device`. These are `GetShaderLocation`, texture and image sizes, mesh counts, mip levels, framebuffer completeness, the monitor size and the camera's input step. What raylib does inside a call is not modelled. Only the call, its arguments and the GL state listed above are modelled.
- `Device` keeps no invariant of its own. Each call updates the state by `Step`, and every method states the resulting state.
- Unmanaged trace-log callback marshalling is not modelled (`RaylibHelpers.cs:64-70`). The callback is an opaque identifier that the model stores. The messages raylib itself sends through it are not modelled, while the console's logging of a message is.
- `ShaderExtensions.SetLocation`, which writes a location into the shader's unmanaged array, is not modelled. The four `SetLocation` calls of the point-lighting constructor (`PointLightingStage.cs:48-51`) and the three of the geometry constructor (`GeometryStage.cs:38-40`) are therefore absent from their call logs.
- ForwardStages.ForwardStage.constructor: `Raylib.LoadMaterialDefault()` (`ForwardStage.cs:31`) is not a call of the model. The stage takes the device's default shader, which is the shader of raylib's default material, and the call log does not record the material load.
- The informational version of the assembly is a parameter of the debug stage.
- `Engine.cs` and `Program.cs` are window setup and the main loop. Only Engine's stage order is used, as a fixture for the pipeline lemmas.
- The music and effects volumes are settings the source accepts and does not apply (`Configuration.cs:289-311`). They are modelled as making no call.
- SceneCreation.Create: its contract states the scene's tables, collections and whether it throws, but not the call log. The call log is stated phase by phase by `SceneLoading.LoadResources` and `EntityLoading.LoadEntities`, because one proof obligation holding both phases' folds is beyond the solver's budget.
- SceneCreation.Create: which texture or model each kept name holds is stated by `SceneLoading.LoadResources` and `SceneCreation.LoadTables` (`Sourced`). Create, Replace and Load state the keys of the tables, not this per-entry content, because carrying the heap-dependent predicate across entity loading is beyond the solver's budget.
- RenderingPipelines.RenderingPipeline.Render: states which channels a frame produces and when it throws, as `Flow` gives them. It does not state the call log of the whole frame, which each stage's `Render` states for itself.
- RenderingPipelines.RenderingPipeline.Render: requires the stages to be distinct objects with disjoint state (`Valid`). The source does not check this, and the engine's stage list meets it.
- DebugConsole.Console.Update: does not state the cursor state after the frame, only the GUI counter and the cursor call of a toggle. When a `load` or `set` command runs, the cursor state depends on the scene and configuration calls in between.
- ConfigurationUpdate.ApplyFiltering: a `graphic:filtering` value written as a comma-separated list of names (which enum parsing accepts, combining the members' values) is modelled as text that does not read, so the model throws where the source would apply the combined value.
- Binding.Lookup: the property names are compared ignoring case by ASCII lower-casing. The source uses the current culture's case-insensitive comparison (`BaseEntity.cs:53-54`), which can also match non-ASCII letters and culture-specific pairs.
- Resources.DrawCalls: for a model with more meshes than materials, the material of the later meshes is None. Raylib reads past the materials array there, and what it reads is not modelled.
- DebugConsole.Console.Update: every line logged in one frame carries the same time stamp, a parameter. The echo is stated after the frame's own calls rather than interleaved with them, which is the same log. Messages raylib itself logs inside a call are not modelled.
