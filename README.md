# Lightmetrica component runtime — a Dafny model

This project models the component runtime of the Lightmetrica renderer (version 3),
together with the small stateful parts around it:

- **Component registry** (`Components.ComponentContext`): a map from a string key
  to a pair of create and release functions. The newest registration wins.
  `createComp` stamps the key and both functions on every new instance.
  Plugin bookkeeping keeps a list that grows only when a load succeeds.
- **Locator tree**: one root component. A locator is `$` followed by
  `.`-separated segment names, such as `$.scene`. `get` walks `underlying(name)`
  from the root one segment at a time and gives null at the first missing step.
  The string helpers `makeLoc`, `parentLoc`, `name` and `splitFirst` are in `Locator`.
- **Component header helpers**: `create<T>` with and without a construct step,
  `ComponentDeleter`, `updateWeakRef`, `visit`, the `ContextInstance` singleton
  and `RegEntry`.
- **The default user context** (`UserCtx`): the root of the tree. It owns three
  children, reachable as `$.assets`, `$.scene` and `$.renderer`.
- **Logger** indentation state, the **progress reporters** (multiplexer, delay
  throttle, default reporter), the **raw mesh** index bookkeeping, the **blank
  renderer** fill loop and the **primitive table** of the OpenGL example viewer.

Modelling choices:

- A polymorphic component is one `class Component`. Its `children` map stands
  for what its virtual `underlying(name)` returns.
- Create and release functions are opaque tokens (`FnRef`). "Calling" a create
  function allocates a fresh `Component`. Each call of a release function is
  recorded in the `released` journal of `ComponentContext`, so contracts can say
  which instance was released and by which function.
- The outcome of the platform loader (`dlopen`) is a boolean parameter. A
  directory listing is a sequence of entries. The clock of the progress
  reporters is an integer parameter `now`, in milliseconds.
- Calls a reporter forwards to its children, progress lines and log lines are
  recorded in list fields (`outbox`, `forwarded`, `reports`, `emitted`).
- The source's `assert`s (`makeLoc` needs a non-empty child, `name` needs a `.`,
  `reset` needs the default assets and scene to be registered) become
  `requires` clauses.
- Where the source throws `std::runtime_error`, the model returns `Outcome.Err`.

Three behaviours of the registry, as the code has them:

- `createComp` and `get` report every failure by returning null; neither has
  distinct error kinds (src/component.cpp:142-150, 249-274).
- The plugin directory scan passes only the file's stem, without its directory,
  to `loadPlugin` (src/component.cpp:228).
- Re-registering a key only logs a warning and then overwrites the entry
  (src/component.cpp:162-165). `Reg` returns that warning as `overriding`.

`GLScene.addByName` returns the primitive count before the call, also when the
name already exists and no primitive is added (`example/lmgl/lmgl.h:350`). Then
the returned index names no primitive. The model keeps this behaviour.
`GLScenes.SceneScenario` shows it.

## Model

| member | source | states |
|---|---|---|
| `Locator.SplitFirst` | src/component.cpp:261-267 | The first part has no `.`. With a `.`, the input is first + "." + rest. Without one, the input comes back whole with an empty rest. The rest is shorter than a non-empty input. |
| `Locator.MakeLoc` | include/lm/component.h:175-178 | The child alone for an empty base. Otherwise the base, one `.` and the child, in that order. |
| `Locator.ParentLoc` | include/lm/component.h:143-149 | "" when there is no `.`. Otherwise the prefix of the locator that ends just before its last `.`. |
| `Locator.Name` | include/lm/component.h:159-163 | The result has no `.`, and the locator equals parentLoc + "." + name. |
| `Locator.ParentNameOfMakeLoc` | include/lm/component.h:143-178 | Round trip: for a non-empty base and a `.`-free child, parentLoc and name of makeLoc(base, child) give back base and child. |
| `Locator.ParentOfTopLevel` | include/lm/component.h:143-149 | A top-level locator made from an empty base has no parent locator. |
| `Locator.MakeLocOfParentName` | include/lm/component.h:143-178 | Converse round trip: makeLoc(parentLoc(l), name(l)) == l when both parts are non-empty. |
| `Locator.SplitFirstJoin` | src/component.cpp:261-267 | Splitting a `.`-joined list of segments gives exactly the first segment and the join of the rest. |
| `Locator.MakeLocJoin` | include/lm/component.h:175-191 | makeLoc appends one segment to a joined locator: makeLoc(Join(segs), c) == Join(segs + [c]). |
| `Components.Component.Underlying` | include/lm/component.h:247 | The named child, or null when there is none. The `children` map stands for what each component type's override of `underlying` returns; the base version returns null for every name. |
| `Components.ReleaseOf` | include/lm/component.h:297-305 | The deleter makes exactly one release call when the releaseFunc is set, with that function and that instance. Otherwise it makes none. |
| `Components.Resolve` | src/component.cpp:275-282 | The walk stays null once null. With nothing left to walk, it stops at the current component. |
| `Components.Lookup` | src/component.cpp:249-288 | Null without a root, for the empty locator, and when the first segment is not `$`. get("$") is the root. |
| `Components.ResolveJoin` | src/component.cpp:275-287 | Walking a `.`-joined path of well-formed segments equals following `underlying` along the segment list (the reference walk `WalkSegs`). |
| `Components.LookupPath` | src/component.cpp:249-288 | get("$.s1.….sn") equals the reference walk of s1 … sn from the root. |
| `Components.LookupTwoSegments` | src/component.cpp:270-287 | get("$.a.b") is root.underlying(a).underlying(b), and null if the first step is null. |
| `Components.LookupNeedsRootSigil` | src/component.cpp:250-274 | A non-null result needs a root and a locator that is `$` or starts with `$.`. |
| `Components.KeyGen` | include/lm/component.h:339-345 | A non-template type keeps its key unchanged. |
| `Components.PluginStem` | src/component.cpp:212-228 | For a name matching `^[0-9a-z_]+\.so$`, the stem is non-empty, made of pattern characters, and stem + ".so" is the file name. |
| `Components.ScanCandidates` | src/component.cpp:218-231 | Every regular file matching the pattern gives its stem, and every stem comes from such an entry. |
| `Components.LoadedLibraries` | src/component.cpp:219-230 | Every kept library was opened from a candidate stem whose load succeeded. There are no more libraries than candidates. |
| `Components.LoadedLibrariesComplete` | src/component.cpp:219-230 | Conversely, every candidate stem whose load succeeds has its library in the list, and when all loads succeed the list is as long as the candidates. |
| `Components.LoadedLibrariesAppend` | src/component.cpp:219-230 | The loop keeps listing order: scanning `a` then `b` loads the libraries of `a` followed by those of `b`. |
| `Components.ComponentContext.CreateComp` | src/component.cpp:142-156 | Null iff the key is not registered. Otherwise a fresh instance whose key is the requested key and whose create and release functions are the registered pair. The registry is unchanged. |
| `Components.ComponentContext.Reg` | src/component.cpp:158-166 | Inserts or overwrites the entry for the key and leaves every other key alone. It warns (`overriding`) iff the key was present. |
| `Components.ComponentContext.Unreg` | src/component.cpp:168-170 | Removes exactly that key. Nothing changes when the key is absent. |
| `Components.ComponentContext.LoadPlugin` | src/component.cpp:172-199 | Succeeds iff the loader opens the library. The plugin list grows by that one library exactly on success. |
| `Components.ComponentContext.LoadPluginDirectory` | src/component.cpp:201-232 | A missing directory changes nothing. Otherwise the plugins loaded from the matching regular files, in listing order, are appended, and every matching file whose load succeeds is among the plugins. |
| `Components.ComponentContext.UnloadPlugins` | src/component.cpp:234-237 | The plugin list is empty afterwards. |
| `Components.ComponentContext.ForeachRegistered` | src/component.cpp:239-243 | Every registered key is visited exactly once and no other key is visited. |
| `Components.ComponentContext.RegisterRootComp` | src/component.cpp:245-247 | The given component becomes the root. |
| `Components.ComponentContext.Get` | src/component.cpp:249-288 | The resolving loop returns exactly `Lookup(root, locator)`. |
| `Components.ComponentContext.Delete` | include/lm/component.h:297-305 | The instance's releaseFunc is called exactly when it is set. |
| `Components.ComponentContext.Create` | include/lm/component.h:551-560 | Empty iff createComp fails. Otherwise the new instance carries the requested key, the registered functions and the given locator. |
| `Components.ComponentContext.CreateWithProp` | include/lm/component.h:569-576 | Empty iff creation fails or construct(prop) fails. The journal grows by exactly the releases `RejectReleases` allows: one release of the fresh, rejected instance through the registered release function when that function is set, and nothing otherwise. |
| `Components.ComponentContext.UpdateWeakRef` | include/lm/component.h:507-518 | A null or unlocated pointer is unchanged. Otherwise it becomes get(p.loc). |
| `Components.VisitWeak` | include/lm/component.h:525-531 | A weak pointer is shown to the visitor flagged weak, and the pointer the visitor leaves behind is what the reference holds afterwards, so a weak reference can be re-bound. |
| `Components.VisitUnique` | include/lm/component.h:538-543 | An owned pointer is shown to the visitor flagged owned, and whatever the visitor does, it keeps its target. |
| `Components.ContextInstance.Get` | include/lm/component.h:628-634 | An error iff uninitialised. Otherwise the held context. |
| `Components.ContextInstance.Shutdown` | include/lm/component.h:658-660 | The held context, if any, is released, and none is held afterwards. |
| `Components.ContextInstance.Init` | include/lm/component.h:646-653 | Initialised iff the new context is created and constructed. Then it has the type's key, locator `$` and the registered create and release functions. The journal is exactly the release of the previous context followed by the release of a fresh rejected instance, if construct rejected it. |
| `Components.ContextInstance.Initialized` | include/lm/component.h:669-671 | True exactly when a context is held. |
| `Components.RegEntry.constructor` | include/lm/component.h:721-730 | Registers the key (through KeyGen) with its create and release pair. |
| `Components.RegEntry.Destroy` | include/lm/component.h:731-734 | Unregisters exactly that key. |
| `UserCtx.UserContext.constructor` | src/user.cpp:32-35 | The new user context is registered as the root component. |
| `UserCtx.UserContext.Underlying` | src/user.cpp:86-97 | Non-null exactly for "assets", "scene" or "renderer" when that slot is held, and then it is that slot. Any other name gives null. |
| `UserCtx.UserContext.ForeachUnderlying` | src/user.cpp:99-103 | Visits assets, scene and renderer, in that order, as owned references, and leaves all three slots as they were. |
| `UserCtx.UserContext.Reset` | src/user.cpp:114-120 | Fresh assets at makeLoc(loc, "assets") and a fresh scene at makeLoc(loc, "scene"), each carrying the create and release functions registered for its key. No renderer. The context's own key, locator and functions are unchanged. The journal grows by exactly the releases of the old instances, in slot order. |
| `UserCtx.UserContext.Construct` | src/user.cpp:48-83 | Always succeeds, and ends in the state reset leaves: fresh default assets and scene under the keys `assets::default` and `scene::default`, with the registered create and release functions and the locators makeLoc(loc, "assets") and makeLoc(loc, "scene"), where loc is the context's own locator (`$.assets` and `$.scene` for a root context at `$`). No renderer. Its own key, locator and functions are unchanged, and the previous three children are released, in order, through their release functions. |
| `UserCtx.UserContext.SetRenderer` | src/user.cpp:138-144 | The new renderer sits at makeLoc(loc, "renderer") and carries the registered create and release functions. An error, with no renderer held, iff creation or construction fails. The journal grows by exactly the release of a fresh rejected instance, if any, then the release of the old renderer. |
| `UserCtx.UserContext.Render` | src/user.cpp:146-155 | An error iff the renderer requires a scene and the scene is not renderable. |
| `UserCtx.UserContext.Save` | src/user.cpp:157-165 | An error iff the film locator does not resolve or the film fails to save. |
| `UserCtx.UserContext.Buffer` | src/user.cpp:167-173 | An error iff the film locator does not resolve. Otherwise the film found there. |
| `UserCtx.UserContext.Serialize` | src/user.cpp:175-180 | Writes the slots in the order assets, scene, renderer. |
| `UserCtx.UserContext.Deserialize` | src/user.cpp:182-187 | Reads the slots back in the same order, keeps the exposed children in step, and leaves the context's own key, locator and functions unchanged. |
| `UserCtx.UnderlyingAgrees` | src/user.cpp:86-97 | The root's exposed children agree with the user context's name dispatch. |
| `UserCtx.LookupSlot` | src/user.cpp:86-97 | With the user context as root, get("$.<name>") is underlying(name) for every segment name. |
| `UserCtx.SceneAtItsLocator` | src/user.cpp:114-120 | With the context at `$`, after reset the scene is found at its own locator "$.scene". |
| `UserCtx.Primitive` | src/user.cpp:313-322 | Creates one transform node holding the model, or a new primitive node. Appends it to the root node's children, keeps the root's kind and models, and leaves the other nodes unchanged. |
| `Logger.NextIndentation` | lm/src/logger.cpp:41-50 | Never negative. Equals old + n when that is positive, otherwise 0. |
| `Logger.Prefix` | lm/src/logger.cpp:43-48 | 2k dots then one space for k > 0. Empty otherwise. |
| `Logger.Impl.Init` | lm/src/logger.cpp:26-29 | A held logger is shut down first. One logger is held afterwards. |
| `Logger.Impl.Shutdown` | lm/src/logger.cpp:31-34 | No logger is held afterwards. |
| `Logger.Impl.Log` | lm/src/logger.cpp:36-39 | Nothing is emitted without a logger. Otherwise exactly one line, the current prefix followed by the message. |
| `Logger.Impl.UpdateIndentation` | lm/src/logger.cpp:41-50 | Keeps the counter non-negative and the prefix in step with it. Adds n when the sum is positive, otherwise clamps to 0 with an empty prefix. |
| `Logger.IndentAtLeastSum` | lm/src/logger.cpp:41-50 | Over any sequence of updates, clamping only raises the counter: the result is at least the plain sum, and never negative. |
| `Logger.IndentScopeRestores` | lm/src/logger.cpp:41-50 | A +n then -n pair, as a scoped indenter makes, restores a non-negative counter. |
| `Progress.Fanout` | src/progress.cpp:35-49 | One delivery per child, to children 0 … n-1 in order, each carrying the same call. |
| `Progress.Mux.Construct` | src/progress.cpp:23-33 | Success iff every entry can be created. On success there is one new child per entry, in order, and nothing is released. On failure it stops at the first entry that cannot be created, keeping the children made before it, and the only release is that of the fresh instance the failing entry's construct rejected, if any. Each child carries its key's registered create and release functions. |
| `Progress.Mux.Broadcast` | src/progress.cpp:35-49 | Every child receives the call once, in order. |
| `Progress.Mux.Start` | src/progress.cpp:35-37 | start is forwarded to every child, in order. |
| `Progress.Mux.Update` | src/progress.cpp:39-41 | update is forwarded to every child, in order. |
| `Progress.Mux.UpdateTime` | src/progress.cpp:43-45 | updateTime is forwarded to every child, in order. |
| `Progress.Mux.End` | src/progress.cpp:47-49 | end is forwarded to every child, in order. |
| `Progress.DelayStep` | src/progress.cpp:78-94 | The last-update time moves only when more than `delay` ms have passed, and then it moves to now. |
| `Progress.DelayTraceSpaced` | src/progress.cpp:78-94 | Updates that pass the throttle are each more than `delay` ms after the previous one (and after the start). Each is one of the event times. |
| `Progress.Delay.ConstructAsWritten` | src/progress.cpp:65-70 | Always reports success, even when no underlying reporter could be created (see Findings). The only release is that of a fresh rejected reporter. |
| `Progress.Delay.Construct` | src/progress.cpp:65-70 | Corrected: succeeds iff the underlying reporter is created, and that reporter then carries the registered create and release functions. The only release is that of a fresh rejected reporter. |
| `Progress.Delay.Start` | src/progress.cpp:72-76 | Sets the start and last-update times to now and always forwards. |
| `Progress.Delay.Update` | src/progress.cpp:78-85 | Forwards, and resets the clock to now, iff more than `delay` ms have passed. Otherwise nothing changes. |
| `Progress.Delay.UpdateTime` | src/progress.cpp:87-94 | Throttled exactly like update. |
| `Progress.Delay.End` | src/progress.cpp:96-98 | Always forwarded. |
| `Progress.TruncDiv` | src/progress.cpp:135 | C++ integer division: the remainder takes the sign of the dividend and is smaller than the divisor in size. |
| `Progress.Eta` | src/progress.cpp:131-138 | No ETA iff nothing is processed yet. Otherwise elapsed·(total−processed)/processed in integer ms. |
| `Progress.EtaBounds` | src/progress.cpp:131-138 | For 0 < processed ≤ total, the ETA is the remaining work at the average rate so far, rounded down. It is 0 when the work is complete. |
| `Progress.Default.Start` | src/progress.cpp:115-121 | Records the mode and totals and sets both clocks to now. |
| `Progress.Default.Update` | src/progress.cpp:123-146 | Ignored unless the mode is Samples. Otherwise a line with the ETA at most every 500 ms, and the clock moves only then. |
| `Progress.Default.UpdateTime` | src/progress.cpp:148-164 | Ignored unless the mode is Time. Otherwise a line with the remaining time at most every 500 ms. |
| `Progress.Default.End` | src/progress.cpp:166-168 | Writes the completion line. |
| `MeshRaw.DefaultFaceIndex` | src/mesh/mesh_raw.cpp:12-15 | A default face record has p = t = n = -1. |
| `MeshRaw.GroupTriples` | src/mesh/mesh_raw.cpp:37-44 | The k-th vector is (xs[3k], xs[3k+1], xs[3k+2]). There are \|xs\|/3 of them. |
| `MeshRaw.GroupPairs` | src/mesh/mesh_raw.cpp:45-48 | The k-th vector is (xs[2k], xs[2k+1]). There are \|xs\|/2 of them. |
| `MeshRaw.ZipFaces` | src/mesh/mesh_raw.cpp:49-53 | One face record per entry of fs["p"]: record i is (p[i], t[i], n[i]). |
| `MeshRaw.Mesh.Construct` | src/mesh/mesh_raw.cpp:36-55 | Appends the grouped positions, normals, texture coordinates and face records. Always succeeds. |
| `MeshRaw.Mesh.NumTriangles` | src/mesh/mesh_raw.cpp:88-90 | The number of complete triples of face records (integer division by 3). |
| `MeshRaw.Mesh.ForeachTriangle` | src/mesh/mesh_raw.cpp:57-61 | The callback sees every face index 0 … numTriangles()-1 once, in increasing order, with triangleAt of that index. |
| `MeshRaw.TriangleFromFlat` | src/mesh/mesh_raw.cpp:63-72 | After grouping, each of a triangle's three corners is the position triple, normal triple and texture-coordinate pair of the flat arrays that its face record points to. |
| `MeshRaw.Mesh.TriangleAt` | src/mesh/mesh_raw.cpp:63-72 | Corner j of triangle f is the position, normal and texture coordinates selected by face record 3f+j. |
| `RendererBlank.Blank.Construct` | src/renderer/renderer_blank.cpp:29-36 | Fails iff the output locator does not resolve to a film. Otherwise it holds that film. |
| `RendererBlank.Blank.RequiresScene` | src/renderer/renderer_blank.cpp:38-40 | The blank renderer never needs a scene. |
| `RendererBlank.Blank.ForeachUnderlying` | src/renderer/renderer_blank.cpp:24-26 | Visits the film as a weak reference and re-binds it to the live film the visitor returns; it is null iff the visitor returns null or a component that is no live film. |
| `RendererBlank.FilmOfOwnComp` | src/renderer/renderer_blank.cpp:24-26 | When films have distinct components, looking a film up by its own component finds that film, so a visitor that returns its argument leaves the film in place. |
| `RendererBlank.Blank.Render` | src/renderer/renderer_blank.cpp:42-50 | After the clear and the row-by-row loop, every pixel (x, y) of the w×h film holds the colour. |
| `GLScenes.GLScene.Reset` | example/lmgl/lmgl.h:304-310 | Empties the meshes, the materials, both maps and the primitives. |
| `GLScenes.GLScene.Add` | example/lmgl/lmgl.h:313-336 | Appends exactly one mesh and one unnamed primitive using it. Reuses the material recorded under the name, or appends the material and records its index. Keeps every index in range. |
| `GLScenes.GLScene.AddGeometry` | example/lmgl/lmgl.h:338-345 | Appends one mesh, one material and one unnamed primitive referencing both new indices. |
| `GLScenes.GLScene.AddByName` | example/lmgl/lmgl.h:347-365 | A new name appends a mesh, a material and a primitive and maps the name to it. A known name replaces only that primitive's mesh and material slots. Both branches return the prior primitive count. |
| `GLScenes.GLScene.PrimitiveAt` | example/lmgl/lmgl.h:367-369 | The i-th primitive. Out of range is an error. |
| `GLScenes.GLScene.MaterialAt` | example/lmgl/lmgl.h:371-373 | The i-th material. Out of range is an error. |
| `GLScenes.GLScene.PrimitiveByName` | example/lmgl/lmgl.h:375-377 | In a valid scene, an error iff the name is unknown. Otherwise the primitive recorded under it. |
| `GLScenes.GLScene.ForeachPrimitive` | example/lmgl/lmgl.h:381-385 | The callback sees exactly the primitives, in order. |
| `GLScenes.PrimitivesResolve` | example/lmgl/lmgl.h:313-377 | In a valid scene, every primitive and its material can be fetched. |

## Findings

| source | as written | input that shows it | evidently intended | confidence | as-written member | corrected member |
|---|---|---|---|---|---|---|
| src/progress.cpp:65-70 | `ProgressContext_Delay::construct` returns true even when `comp::create` of the underlying reporter fails. `ctx_` is then null and `start`/`end` dereference it. | A delay configuration whose `progress` entry names an unregistered reporter key (`progress::missing`) | Report failure, as the multiplexer does at src/progress.cpp:27-29 | medium; not executed | `Progress.Delay.ConstructAsWritten` (shown by `Progress.DelayWithMissingInner`) | `Progress.Delay.Construct` |

## Left out

- Dynamic loading itself (`dlopen`, `LoadLibraryA`, `dlsym`, `FreeLibrary`, `SetDllDirectory`) and directory iteration are OS calls. The loader's verdict and the listing are parameters. Only the Linux file pattern and `.so` suffix are modelled. The debug-build `-debug` suffix and the Windows and macOS patterns are not.
- The master/worker distribution layer: include/lm/dist.h only declares interfaces, and no implementation is part of this model.
- Serialisation bytes: the archives come from an external library. Only the order in which the user context saves and loads its three slots is modelled.
- `KeyGen` for template types depends on compiler-specific `typeid` names and is left out.
- `ScopedLoadPlugin` is left out.
- `dynamic_cast` to the requested interface in `create<T>` and `get<T>`: the model has no component types, so a created instance always has the requested interface.
- Log output goes through spdlog (I/O). Log lines are recorded as values, and the error messages that `createComp` and `get` log are not modelled.
- The user context's destructor, its `info`, `asset` and `build`, and the subsystem initialisations in `construct` (exception, logger, parallel, progress, debugio, objloader) are calls into code that is not part of this model. Scene nodes are a minimal node table (`UserCtx.SceneNodes`), because the scene implementation is not part of this model.
- The film implementation is not part of this model. `RendererBlank.Film` is a minimal stand-in with `clear` and `setPixel`, and `get<Film>` is a lookup in a given list of live films.
- Floating-point work: the percentage and seconds formatting of the progress lines, the colour values and mesh coordinates (opaque types), and `Mesh_Raw::surfacePoint`.
- The OpenGL calls of `GLMesh` and `GLMaterial` (opaque tokens here), `GLScene::updateGUI`, and the rest of the viewer.
- Components.ComponentContext.ForeachRegistered: does not fix the visiting order, because the source iterates an unordered map whose order is unspecified.
- UserCtx.UserContext.Render: states only the guard. The renderer's own `render` call is dispatched to whichever renderer is held and is not modelled here (the blank renderer's is `RendererBlank.Blank.Render`).
- UserCtx.UserContext.Deserialize: takes the three loaded instances as given. Reading them from the stream is not modelled, and neither is the release of the previous occupants of the three slots when they are replaced: how the archive library disposes of them is not part of this model, so unlike Reset and SetRenderer it records nothing in the release journal.
- Progress.Default.UpdateTime: the elapsed and total times are kept as reals and passed through unchanged.
- Fixed-width integers are modelled as unbounded `int`, since overflow of a signed C++ integer is undefined behaviour rather than a wrap-around the code relies on: the logger's `int indentation_` and its `2*indentation_` prefix width, the `long long` product in the progress ETA, `int fs_size` and the `3*face` index in the raw mesh.
- MeshRaw.Mesh.Construct: requires the flat position and normal arrays to have a multiple of 3 entries, the texture-coordinate array an even number, and `fs["t"]` and `fs["n"]` at least as many entries as `fs["p"]`. The source reads past the end of the JSON arrays otherwise, which the model does not give a meaning to.
- MeshRaw.Mesh.ForeachTriangle: requires every face record of a complete triangle to index inside `ps_`, `ns_` and `ts_` (`FacesInRange`), and MeshRaw.Mesh.TriangleAt requires the same of its three records and a face inside `fs_`. The source indexes the vectors unchecked.
