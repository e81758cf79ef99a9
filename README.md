# hdLuxCore bookkeeping, modelled in Dafny

hdLuxCore is a Hydra render delegate: it receives a USD scene through
Hydra's prims (meshes, lights, render buffers) and feeds it to the LuxCore
path tracer. Most of its code calls libraries that are not part of this
model. Underneath those calls sit small, sequential pieces of bookkeeping,
and this project models and proves properties about them:

- **AOV bindings.** The renderer checks its output bindings (AOVs) against
  name, format, clear-value and viewport rules, and caches the verdict until
  the bindings or the viewport change. It also clears the bound buffers and
  marks them unconverged (`aov.dfy`, `renderer.dfy`).
- **The render delegate's tables.** These cover:
  - the default descriptor proposed for each AOV, checked against the
    validator's rules;
  - the prim factories, which accept only the supported types;
  - the reference count that keeps the shared resource registry alive
    (`render_delegate.dfy`).
- **The mesh prim's sync** (`mesh.dfy`), covering:
  - what is pulled under each dirty bit;
  - the refine and smooth-normals decisions;
  - when the LuxCore mesh is rebuilt, with its flattened vertex buffer;
  - how the adjacency and normals validity flags are kept;
  - how instance objects are replaced.

  The edge, edge hash and triangle value types of the mesh header are in
  `mesh_types.dfy`.
- **The render pass's frame** (`render_pass.dfy`), covering:
  - the viewport and camera change checks against cached copies;
  - the instantiation loop over the mesh prototypes, inside one scene edit;
  - the convergence query.
- **The light prim's cache** (`light.dfy`): the transform and parameters,
  gated by the light's dirty bits.

LuxCore is seen from the delegate as a `LuxCore.Session` object
(`luxcore.dfy`). Every call the delegate makes on it appends one event to a
log. The session also keeps the two facts the delegate can query back: the
defined meshes and the live objects. The scene-edit protocol is a small
automaton over that log: edits are not nested, and scene mutations happen
only inside an edit. Its `EditsBalanced` predicate is what the bracket
lemmas prove. Hydra's change-tracking bits are in `dirty_bits.dfy`. Shared
value types are in `values.dfy`: vectors, matrices, `Option`, and the
decimal instance names `id + to_string(i)`.

Hydra's scene delegate is a value holding what each of its getters returns
for one sync. Matrices, colours and floating-point parameters are modelled
as opaque values, compared only for equality.

## Model

| member | source | states |
|---|---|---|
| Values.Scale | pxr/imaging/plugin/hdLuxCore/mesh.cpp:322 | A uniform scale matrix has (0,0,0,1) as its last row. |
| Values.Digit | pxr/imaging/plugin/hdLuxCore/mesh.cpp:480 | The digit character is '0'..'9' and encodes exactly the value d. |
| Values.NatToString | pxr/imaging/plugin/hdLuxCore/mesh.cpp:480 | std::to_string of an ordinal is non-empty and all digits. It has one character exactly for values below ten, and its last character is the value's last digit. |
| Values.NatToStringInjective | pxr/imaging/plugin/hdLuxCore/mesh.cpp:480 | Equal decimal renderings come from equal ordinals. |
| Values.InstanceName | pxr/imaging/plugin/hdLuxCore/mesh.cpp:480 | An instance name strictly extends the prototype id it starts with. |
| Values.InstanceNamesDistinct | pxr/imaging/plugin/hdLuxCore/mesh.cpp:478-490 | Different ordinals give different instance names of one prototype. |
| Values.InstanceNameInRange | pxr/imaging/plugin/hdLuxCore/mesh.cpp:484-490 | Every ordinal below n names one of the first n instances. |
| Values.InstanceNameOutsideRange | pxr/imaging/plugin/hdLuxCore/mesh.cpp:478-482 | An ordinal at or above n names none of the first n instances. |
| DirtyBits.CleanSceneBits | pxr/imaging/plugin/hdLuxCore/mesh.cpp:517 | After a sync no scene dirty bit is left set, and the NewRepr bit is kept as it was. |
| LuxCore.EditStep | pxr/imaging/plugin/hdLuxCore/mesh.cpp:180-184 | One event breaks the edit protocol exactly when it opens an open edit, closes a closed one, or mutates the scene outside an edit. Any other event keeps the open/closed state. |
| LuxCore.EditStateAppend | pxr/imaging/plugin/hdLuxCore/renderPass.cpp:151-177 | Running the protocol over a + b runs it over a, then over b from where a left it. |
| LuxCore.BalancedAppend | pxr/imaging/plugin/hdLuxCore/mesh.cpp:468-512 | Two balanced event sequences put side by side are balanced. |
| LuxCore.NeutralEvents | pxr/imaging/plugin/hdLuxCore/renderPass.cpp:107-148 | Pause/Resume/Stop/Start and film or camera parses leave the protocol state unchanged. |
| LuxCore.MutationsWhileOpen | pxr/imaging/plugin/hdLuxCore/renderPass.cpp:159-174 | Mutations inside an open edit keep it open. |
| LuxCore.EditBracketBalanced | pxr/imaging/plugin/hdLuxCore/mesh.cpp:180-184 | Pause, BeginSceneEdit, a body that opens and closes nothing, EndSceneEdit, Resume is balanced. |
| LuxCore.Session.constructor | pxr/imaging/plugin/hdLuxCore/renderDelegate.cpp:112 | A new session has an empty log, no meshes and no objects. |
| LuxCore.Session.Pause | pxr/imaging/plugin/hdLuxCore/mesh.cpp:180 | Appends Pause to the log. |
| LuxCore.Session.Resume | pxr/imaging/plugin/hdLuxCore/mesh.cpp:184 | Appends Resume to the log. |
| LuxCore.Session.Stop | pxr/imaging/plugin/hdLuxCore/renderPass.cpp:140 | Appends Stop to the log. |
| LuxCore.Session.Start | pxr/imaging/plugin/hdLuxCore/renderPass.cpp:148 | Appends Start to the log. |
| LuxCore.Session.BeginSceneEdit | pxr/imaging/plugin/hdLuxCore/mesh.cpp:181 | Appends BeginSceneEdit to the log. |
| LuxCore.Session.EndSceneEdit | pxr/imaging/plugin/hdLuxCore/mesh.cpp:183 | Appends EndSceneEdit to the log. |
| LuxCore.Session.ParseFilm | pxr/imaging/plugin/hdLuxCore/renderPass.cpp:108-111 | Appends the film size parse to the log. |
| LuxCore.Session.ParseCamera | pxr/imaging/plugin/hdLuxCore/renderPass.cpp:141-147 | Appends the camera parse for the two inverse matrices to the log. |
| LuxCore.Session.DefineMesh | pxr/imaging/plugin/hdLuxCore/mesh.cpp:182 | Logs the definition and adds the name to the defined meshes. |
| LuxCore.Session.DeleteObject | pxr/imaging/plugin/hdLuxCore/mesh.cpp:481 | Logs the deletion and removes the name from the objects. |
| LuxCore.Session.ParseObject | pxr/imaging/plugin/hdLuxCore/mesh.cpp:487-490 | Logs the binding of an object to a shape and material, and adds the object. |
| LuxCore.Session.SetMeshAppliedTransformation | pxr/imaging/plugin/hdLuxCore/mesh.cpp:499 | Appends the applied-transformation call to the log. |
| LuxCore.Session.UpdateObjectTransformation | pxr/imaging/plugin/hdLuxCore/mesh.cpp:500 | Appends the object-transformation call to the log. |
| Aov.ParseAov | pxr/imaging/plugin/hdLuxCore/renderer.cpp:135-139 | A token is a primvar AOV exactly when it starts with "primvars:", and is then the prefix plus the parsed name. At most one kind flag is set, and an unprefixed token keeps its whole name. |
| Aov.UnboundOrMisSizedRejected | pxr/imaging/plugin/hdLuxCore/renderer.cpp:158-296 | A binding with no buffer, or with a buffer of another size than the viewport, is rejected. |
| Aov.FormatViolationsRejected | pxr/imaging/plugin/hdLuxCore/renderer.cpp:183-240 | Each format rule rejects on its own: depth needs Float32, ids Int32, normals and primvars Float32Vec3, and colour one of the six colour formats. |
| Aov.ClearValueViolationsRejected | pxr/imaging/plugin/hdLuxCore/renderer.cpp:244-281 | An array clear value of other than one element, a non-colour clear value on the colour AOV, or a type that does not match a Float32, Int32 or Float32Vec3 buffer is rejected. A one-element array is not rejected by the count rule. |
| Aov.UnsupportedNameAccepted | pxr/imaging/plugin/hdLuxCore/renderer.cpp:167-178 | An unsupported AOV name only warns: bound to a viewport-sized buffer with no clear value, it is accepted in any format. |
| Renderer.BufferOf | pxr/imaging/plugin/hdLuxCore/renderer.cpp:160-165 | The validator sees a buffer exactly when one is bound, with that buffer's format and size. |
| Renderer.GetClearColor | pxr/imaging/plugin/hdLuxCore/renderer.cpp:303-340 | Alpha is always 1. A colour value of count one (a single value or a one-element array) gives its red, green and blue; anything else gives opaque black. |
| Renderer.GetInt | pxr/imaging/plugin/hdLuxCore/renderer.cpp:363-364 | The held int of a single Int32 value; 0 for any other value, a one-element array included. |
| Renderer.GetFloat | pxr/imaging/plugin/hdLuxCore/renderer.cpp:366-367 | The held float of a single float value; 0 for any other value, a one-element array included. |
| Renderer.GetFloatVec3 | pxr/imaging/plugin/hdLuxCore/renderer.cpp:369-370 | The held vector of a single float-vec3 value; the zero vector for any other value, a one-element array included. |
| Renderer.ClearPixel | pxr/imaging/plugin/hdLuxCore/renderer.cpp:358-371 | The colour AOV gets four channels with alpha 1. Other AOVs get a pixel exactly for Int32, Float32 and Float32Vec3 buffers: the int, float or three floats `VtValue::Get` yields, which is the zero default for an array. |
| Renderer.AcceptedClearWritesValue | pxr/imaging/plugin/hdLuxCore/renderer.cpp:362-371 | For an accepted non-colour binding with a single clear value, the clear writes exactly that value; the fallbacks are not reached. |
| Renderer.OneElementArrayClearsToZero | pxr/imaging/plugin/hdLuxCore/renderer.cpp:249-371 | A one-element array of the buffer's element type is accepted, yet a non-colour AOV is cleared to zero whatever the element holds. |
| Renderer.OneElementArrayColorClear | pxr/imaging/plugin/hdLuxCore/renderer.cpp:303-340 | On the colour AOV a one-element colour array clears like the single value it holds. |
| Renderer.AcceptedColorClear | pxr/imaging/plugin/hdLuxCore/renderer.cpp:359-361 | For an accepted colour binding (a single value or a one-element array), the clear writes the value's colour with alpha 1. |
| Renderer.ClearsBufferSome | pxr/imaging/plugin/hdLuxCore/renderer.cpp:350-353 | A buffer is cleared exactly when some binding with a clear value points at it. |
| Renderer.FillAfterUntouched | pxr/imaging/plugin/hdLuxCore/renderer.cpp:350-353 | A buffer no binding clears keeps its contents. |
| Renderer.ClearBuffer | pxr/imaging/plugin/hdLuxCore/renderer.cpp:355-374 | One binding's clear fills the buffer with its clear pixel, when there is one, and marks it unconverged. |
| Renderer.ClearStep | pxr/imaging/plugin/hdLuxCore/renderer.cpp:350-375 | Clearing one more binding extends the fill and the cleared-buffer predicate by exactly that binding. |
| Renderer.Renderer.constructor | pxr/imaging/plugin/hdLuxCore/renderer.cpp:51-72 | No bindings, no pending validation, an invalid verdict, a zero viewport and zeroed settings. |
| Renderer.Renderer.SetSamplesToConvergence | pxr/imaging/plugin/hdLuxCore/renderer.cpp:87-91 | Stores the value. |
| Renderer.Renderer.SetAmbientOcclusionSamples | pxr/imaging/plugin/hdLuxCore/renderer.cpp:94-98 | Stores the value. |
| Renderer.Renderer.SetEnableSceneColors | pxr/imaging/plugin/hdLuxCore/renderer.cpp:101-105 | Stores the flag. |
| Renderer.Renderer.SetViewport | pxr/imaging/plugin/hdLuxCore/renderer.cpp:108-117 | Stores the size and makes validation pending. |
| Renderer.Renderer.SetAovBindings | pxr/imaging/plugin/hdLuxCore/renderer.cpp:131-143 | Stores the bindings, leaves exactly one parsed name per binding in the same order, and makes validation pending. |
| Renderer.Renderer.ValidateAovBindings | pxr/imaging/plugin/hdLuxCore/renderer.cpp:146-300 | With nothing pending it returns the cached verdict. Otherwise the result is true exactly when every binding is accepted, so an empty list validates. Afterwards nothing is pending and the verdict is cached. |
| Renderer.Renderer.CheckAllBindings | pxr/imaging/plugin/hdLuxCore/renderer.cpp:156-297 | The verdict survives the loop exactly when every binding is accepted. A surviving verdict implies every binding has a buffer. |
| Renderer.Renderer.CheckBinding | pxr/imaging/plugin/hdLuxCore/renderer.cpp:158-296 | One binding keeps the verdict exactly when it is accepted by every rule. |
| Renderer.Renderer.MarkAovBuffersUnconverged | pxr/imaging/plugin/hdLuxCore/renderer.cpp:379-387 | Every bound buffer becomes unconverged, and nothing else about it changes. |
| Renderer.Renderer.Clear | pxr/imaging/plugin/hdLuxCore/renderer.cpp:343-376 | When validation fails no buffer changes. Otherwise each buffer holds the pixel of the last binding that clears it, and exactly the cleared buffers become unconverged. |
| Renderer.Renderer.ClearBuffers | pxr/imaging/plugin/hdLuxCore/renderer.cpp:350-375 | The clearing loop leaves each buffer as FillAfter says, and unconverged exactly when cleared. |
| RenderDelegate.DefaultAovDescriptor | pxr/imaging/plugin/hdLuxCore/renderDelegate.cpp:183-208 | Only colour is multisampled. The empty descriptor is returned exactly for names outside the table, and every table entry holds a single clear value. |
| RenderDelegate.DefaultAovDescriptorTable | pxr/imaging/plugin/hdLuxCore/renderDelegate.cpp:185-207 | The fixed format and clear value for colour, normals, depths and ids; Float32Vec3 cleared to (0,0,0) for every primvar token; the empty descriptor for an unknown name. |
| RenderDelegate.DefaultDescriptorAccepted | pxr/imaging/plugin/hdLuxCore/renderDelegate.cpp:185-204 | A viewport-sized buffer made from a non-empty default descriptor passes every validator rule. The one exception is a primvar whose name after the prefix is a depth or id name. |
| RenderDelegate.PrimvarDepthDescriptorRejected | pxr/imaging/plugin/hdLuxCore/renderDelegate.cpp:199-201 | The exception is real: the default descriptor of "primvars:depth" is Float32Vec3, which the validator rejects. |
| RenderDelegate.CreateRprim | pxr/imaging/plugin/hdLuxCore/renderDelegate.cpp:233-244 | A prim is built exactly for a supported rprim type (mesh), with the given ids; otherwise null. |
| RenderDelegate.CreateSprim | pxr/imaging/plugin/hdLuxCore/renderDelegate.cpp:253-265 | A camera or an external computation is built exactly for a supported sprim type, with the given id. |
| RenderDelegate.CreateFallbackSprim | pxr/imaging/plugin/hdLuxCore/renderDelegate.cpp:268-281 | As CreateSprim, with the empty path as id. |
| RenderDelegate.CreateBprim | pxr/imaging/plugin/hdLuxCore/renderDelegate.cpp:290-299 | A render buffer is built exactly for the render-buffer type, with the given id. |
| RenderDelegate.CreateFallbackBprim | pxr/imaging/plugin/hdLuxCore/renderDelegate.cpp:302-310 | As CreateBprim, with the empty path as id. |
| RenderDelegate.RegistryCounter.constructor | pxr/imaging/plugin/hdLuxCore/renderDelegate.cpp:64-65 | The count starts at zero with no registry. |
| RenderDelegate.RegistryCounter.Initialize | pxr/imaging/plugin/hdLuxCore/renderDelegate.cpp:119-124 | The count goes up by one, and the registry is created on the step from 0. It exists exactly while the count is positive. |
| RenderDelegate.RegistryCounter.Destroy | pxr/imaging/plugin/hdLuxCore/renderDelegate.cpp:130-135 | The count goes down by one, and the registry is reset on the step from 1. It exists exactly while the count is positive. |
| MeshTypes.TriangleIndices | pxr/imaging/plugin/hdLuxCore/mesh.h:39-48 | A triangle stores its three indices in the order given. |
| MeshTypes.MakeEdge | pxr/imaging/plugin/hdLuxCore/mesh.h:51-60 | An edge stores its two endpoints in non-decreasing order. |
| MeshTypes.EdgeHash | pxr/imaging/plugin/hdLuxCore/mesh.h:69-74 | The hash, computed in 32-bit unsigned arithmetic, fits in 32 bits. |
| MeshTypes.MakeEdgeSymmetric | pxr/imaging/plugin/hdLuxCore/mesh.h:51-64 | Edge(a,b) == Edge(b,a). |
| MeshTypes.MakeEdgeEqualsIff | pxr/imaging/plugin/hdLuxCore/mesh.h:51-64 | Two edges are equal exactly when they join the same unordered pair of vertices. |
| MeshTypes.EqualEdgesHashAlike | pxr/imaging/plugin/hdLuxCore/mesh.h:62-73 | Equal edges hash alike. |
| MeshTypes.EdgeHashSymmetric | pxr/imaging/plugin/hdLuxCore/mesh.h:51-73 | The hash of an edge does not depend on the order of its endpoints. |
| MeshTypes.MakeEdgeIdempotent | pxr/imaging/plugin/hdLuxCore/mesh.h:51-60 | Rebuilding an edge from its stored pair gives it back. |
| MeshTypes.EdgeEqualsIsEquivalence | pxr/imaging/plugin/hdLuxCore/mesh.h:62-64 | Edge equality is reflexive, symmetric and transitive. |
| MeshSync.AsPoints | pxr/imaging/plugin/hdLuxCore/mesh.cpp:295-296 | A value holding points yields them; any other value yields an empty array. |
| MeshSync.InitialDirtyBitsMask | pxr/imaging/plugin/hdLuxCore/mesh.cpp:86-107 | The initial mask holds only scene bits (and InitRepr), not NewRepr. |
| MeshSync.InitialMaskPullsEverything | pxr/imaging/plugin/hdLuxCore/mesh.cpp:91-104 | The initial mask holds every bit the sync reads: points, topology, tags, display style, transform, visibility, cull style, double-sidedness, normals and every generic primvar, with InitRepr and the instance index. Widths are the one primvar it leaves out. |
| MeshSync.PropagateDirtyBits | pxr/imaging/plugin/hdLuxCore/mesh.cpp:109-113 | Adds no bit. |
| MeshSync.WithPrimvarsFacts | pxr/imaging/plugin/hdLuxCore/mesh.cpp:187-218 | The primvar cache only gains or replaces entries, never for points. An entry changes only under a dirty descriptor of its name. |
| MeshSync.WithPrimvarsStoresLast | pxr/imaging/plugin/hdLuxCore/mesh.cpp:208-215 | A dirty primvar other than points is cached with the value and interpolation of the last descriptor of its name. |
| MeshSync.DirtyDescriptorsExact | pxr/imaging/plugin/hdLuxCore/mesh.cpp:229-241 | The filter keeps exactly the computed descriptors whose primvar is dirty. |
| MeshSync.ComputedNamesExact | pxr/imaging/plugin/hdLuxCore/mesh.cpp:253-267 | A name is returned exactly when a dirty descriptor carries it and a value was computed for it. |
| MeshSync.PulledTopologyFields | pxr/imaging/plugin/hdLuxCore/mesh.cpp:300-318 | A dirty topology replaces scheme and faces but keeps refine level and tags. Tags are replaced only under their bit and at a positive refine level. The display style sets the refine level. |
| MeshSync.PulledTopologyKeepsFaces | pxr/imaging/plugin/hdLuxCore/mesh.cpp:300-309 | Without a dirty topology the faces, and so the adjacency built from them, are unchanged. |
| MeshSync.SyncedRefineAgrees | pxr/imaging/plugin/hdLuxCore/mesh.cpp:352-419 | After a sync the refined flag equals the refine decision on the synced topology. |
| MeshSync.NoDirtyDescriptors | pxr/imaging/plugin/hdLuxCore/mesh.cpp:229-241 | With no scene bit set, no computed primvar is dirty. |
| MeshSync.CleanResyncKeepsPrototype | pxr/imaging/plugin/hdLuxCore/mesh.cpp:286-517 | A sync after a sync, with the scene bits cleaned, pulls nothing, rebuilds nothing and leaves the prototype as it was. |
| MeshSync.InitialSyncRebuilds | pxr/imaging/plugin/hdLuxCore/mesh.cpp:382-388 | The initial mask makes the first sync rebuild the mesh, whatever state it starts from. |
| MeshSync.Flatten | pxr/imaging/plugin/hdLuxCore/mesh.cpp:170-175 | The flattened buffer has three entries per point. |
| MeshSync.FlattenAt | pxr/imaging/plugin/hdLuxCore/mesh.cpp:170-175 | Entry 3i+k of the flattened buffer is coordinate k of point i. |
| MeshSync.DeleteEvents | pxr/imaging/plugin/hdLuxCore/mesh.cpp:478-482 | The deletion loop sends one event per previous instance. |
| MeshSync.BindEvents | pxr/imaging/plugin/hdLuxCore/mesh.cpp:484-495 | The binding loop sends one event per instance. |
| MeshSync.DeleteEventsAt | pxr/imaging/plugin/hdLuxCore/mesh.cpp:478-482 | Deletion k removes the object id+k. |
| MeshSync.BindEventsAt | pxr/imaging/plugin/hdLuxCore/mesh.cpp:484-490 | Binding k binds the object id+k to the mesh id with material mat_red. |
| MeshSync.InstanceSyncBalanced | pxr/imaging/plugin/hdLuxCore/mesh.cpp:468-512 | The instance step opens and closes one edit, and mutates the scene only inside it. |
| MeshSync.MeshDefineBalanced | pxr/imaging/plugin/hdLuxCore/mesh.cpp:180-184 | The mesh definition bracket is balanced. |
| MeshSync.SyncEventsBalanced | pxr/imaging/plugin/hdLuxCore/mesh.cpp:386-512 | Everything a sync sends (the mesh definition when one is made, then the instance step) is balanced. |
| MeshSync.InstancedObjectsExact | pxr/imaging/plugin/hdLuxCore/mesh.cpp:472-495 | After an instanced sync the objects id+"0"…id+"(n-1)" exist for the n transforms. No stale id+"j" with n <= j < previous survives. |
| MeshSync.EditBracketAppend | pxr/imaging/plugin/hdLuxCore/mesh.cpp:468-512 | Appending a bracket event by event appends the whole bracket. |
| MeshSync.FilterDirty | pxr/imaging/plugin/hdLuxCore/mesh.cpp:229-241 | The filter loop returns the dirty descriptors in order. |
| MeshSync.DeleteInstances | pxr/imaging/plugin/hdLuxCore/mesh.cpp:478-482 | Logs the deletions and removes exactly the objects id+"0"…id+"(n-1)". |
| MeshSync.BindInstances | pxr/imaging/plugin/hdLuxCore/mesh.cpp:484-495 | Logs the bindings and adds exactly the objects id+"0"…id+"(n-1)". |
| MeshSync.CopyVertices | pxr/imaging/plugin/hdLuxCore/mesh.cpp:170-175 | The vertex copy loop fills a new buffer with the flattened points. |
| MeshSync.Mesh.constructor | pxr/imaging/plugin/hdLuxCore/mesh.cpp:58-68 | Every validity flag is off, the cull style is don't-care, the prim is visible, the instance count is 0, and the caches are empty; the transform is undetermined. |
| MeshSync.Mesh.GetTransforms | pxr/imaging/plugin/hdLuxCore/mesh.h:151-153 | Returns the cached transform list, which nothing fills, so it is always empty. |
| MeshSync.Mesh.InitRepr | pxr/imaging/plugin/hdLuxCore/mesh.cpp:115-127 | Adds the repr token exactly when it is not already there, and leaves the dirty bits alone. |
| MeshSync.Mesh.UpdatePrimvarSources | pxr/imaging/plugin/hdLuxCore/mesh.cpp:187-218 | The primvar cache becomes what WithPrimvars says. |
| MeshSync.Mesh.UpdateComputedPrimvarSources | pxr/imaging/plugin/hdLuxCore/mesh.cpp:220-270 | Returns the names of the dirty computed primvars that got a value. Computed points replace the points and invalidate the normals; the others go to the cache. |
| MeshSync.Mesh.PullGeometry | pxr/imaging/plugin/hdLuxCore/mesh.cpp:290-318 | Dirty, uncomputed points are pulled and invalidate the normals. The topology is pulled, and a dirty topology invalidates the adjacency. |
| MeshSync.Mesh.PullRenderState | pxr/imaging/plugin/hdLuxCore/mesh.cpp:320-338 | Transform, visibility, cull style and double-sidedness change only under their own bits. |
| MeshSync.Mesh.ResolveDrawStyles | pxr/imaging/plugin/hdLuxCore/mesh.cpp:352-377 | Refine holds exactly for surface style, a scheme other than none, and a positive refine level. Smooth normals hold exactly without flat shading, for a scheme other than none and bilinear, and with no authored normals. |
| MeshSync.Mesh.CreateLuxCoreTriangleMesh | pxr/imaging/plugin/hdLuxCore/mesh.cpp:151-185 | Triangulates the topology and sends exactly one DefineMesh, with the point and triangle counts, inside a Pause/Begin/End/Resume bracket. |
| MeshSync.Mesh.PopulatePrototype | pxr/imaging/plugin/hdLuxCore/mesh.cpp:386-419 | A rebuild happens exactly when the topology is dirty or the refine decision changed. It stores the decision and invalidates the normals, and defines a mesh only when not refining. |
| MeshSync.Mesh.UpdateSmoothNormals | pxr/imaging/plugin/hdLuxCore/mesh.cpp:425-441 | With smooth normals on, a stale adjacency is rebuilt and stale normals are recomputed, so both end up valid. With smooth normals off, nothing changes. |
| MeshSync.Mesh.PopulateInstances | pxr/imaging/plugin/hdLuxCore/mesh.cpp:462-514 | Inside one edit, the previous instances are deleted and one object is bound per transform, or the single object id is bound. The instance count becomes the transform count. |
| MeshSync.Mesh.ReplaceInstances | pxr/imaging/plugin/hdLuxCore/mesh.cpp:472-509 | The edit body of the instance step and the objects it leaves. |
| MeshSync.Mesh.PullDirtyItems | pxr/imaging/plugin/hdLuxCore/mesh.cpp:286-343 | Step 1 of the sync takes the prototype to PulledPrototype and keeps the adjacency and normals consistent. |
| MeshSync.Mesh.PullSceneData | pxr/imaging/plugin/hdLuxCore/mesh.cpp:287-318 | The computed primvars, points and topology, as PulledSceneData says. |
| MeshSync.Mesh.PullPrimvars | pxr/imaging/plugin/hdLuxCore/mesh.cpp:339-343 | The primvar cache is refreshed exactly when normals, widths or a generic primvar is dirty. |
| MeshSync.Mesh.RebuildPrototype | pxr/imaging/plugin/hdLuxCore/mesh.cpp:352-441 | Steps 2 and 3 and the normals. A mesh is defined exactly when the prototype is rebuilt unrefined, and smooth normals imply valid normals afterwards. |
| MeshSync.Mesh.UpdatePrototype | pxr/imaging/plugin/hdLuxCore/mesh.cpp:286-441 | Steps 1 to 3 take the prototype to SyncedPrototype and log the definition exactly when one is made. |
| MeshSync.Mesh.Sync | pxr/imaging/plugin/hdLuxCore/mesh.cpp:272-518 | The whole sync: the prototype becomes SyncedPrototype and the instances are replaced. The log gets the definition (when made) and then the instance step; every scene bit is cleaned; the invariant is kept. |
| MeshSync.Mesh.Finalize | pxr/imaging/plugin/hdLuxCore/mesh.cpp:70-83 | Inside one edit, deletes the object id exactly when a mesh of that name is defined. |
| RenderPass.InstantiationBodyOnlyBinds | pxr/imaging/plugin/hdLuxCore/renderPass.cpp:159-174 | The loop sends only bindings, with material mat_red, of objects to meshes it instantiates. |
| RenderPass.NothingToInstantiate | pxr/imaging/plugin/hdLuxCore/renderPass.cpp:161-162 | Meshes already defined, and meshes whose creation failed, are skipped. |
| RenderPass.InstantiatedMeshesBound | pxr/imaging/plugin/hdLuxCore/renderPass.cpp:163-171 | An instantiated mesh with n transforms gets the objects id+"0"…id+"n", so always at least one. |
| RenderPass.ObjectsOnlyGrow | pxr/imaging/plugin/hdLuxCore/renderPass.cpp:159-174 | The loop deletes no object. |
| RenderPass.FrameBalanced | pxr/imaging/plugin/hdLuxCore/renderPass.cpp:102-177 | A frame opens and closes exactly one scene edit, and every binding is inside it. |
| RenderPass.SteadyFrame | pxr/imaging/plugin/hdLuxCore/renderPass.cpp:104-121 | With the viewport and matrices unchanged, a frame re-sends neither the film size nor the camera. |
| RenderPass.CameraResetShape | pxr/imaging/plugin/hdLuxCore/renderPass.cpp:119-148 | A camera reset is exactly Stop, one scene Parse, Start, in that order. |
| RenderPass.NestedDefinitionBreaksEdit | pxr/imaging/plugin/hdLuxCore/renderPass.cpp:151-162 | The private creation routine's bracket, sent from inside the loop's open edit, would break the edit protocol. |
| RenderPass.RenderPass.constructor | pxr/imaging/plugin/hdLuxCore/renderPass.cpp:36-57 | A zero viewport, no bindings, not converged. |
| RenderPass.RenderPass.IsConverged | pxr/imaging/plugin/hdLuxCore/renderPass.cpp:67-86 | With no bindings, returns the cached flag. Otherwise returns false exactly when some bound buffer is not converged; null buffers are ignored. |
| RenderPass.RenderPass.UpdateViewport | pxr/imaging/plugin/hdLuxCore/renderPass.cpp:102-113 | Sends the film size inside Pause/Resume only when the size changed, and caches the viewport. |
| RenderPass.RenderPass.UpdateCamera | pxr/imaging/plugin/hdLuxCore/renderPass.cpp:115-149 | Resets the camera only when a matrix changed, and caches the matrices. |
| RenderPass.RenderPass.Execute | pxr/imaging/plugin/hdLuxCore/renderPass.cpp:88-178 | The frame's log is FrameEvents, which is balanced. Its objects are those of the loop, and the caches hold the new viewport and matrices. |
| RenderPass.RenderPass.InstantiateMeshes | pxr/imaging/plugin/hdLuxCore/renderPass.cpp:155-174 | The loop's log and objects are InstantiationBody and InstantiationObjects. |
| Light.InitialDirtyBitsMask | pxr/imaging/plugin/hdLuxCore/light.cpp:35-40 | The mask is exactly DirtyTransform and DirtyParams. |
| Light.SyncedParams | pxr/imaging/plugin/hdLuxCore/light.cpp:8-28 | The transform changes only under its bit, and becomes the identity when the value holds no matrix. The parameters change only under theirs, and treat-as-point becomes false when unauthored. |
| Light.CleanSyncKeeps | pxr/imaging/plugin/hdLuxCore/light.cpp:12-27 | With neither bit set, a sync keeps the cache. |
| Light.SyncIdempotent | pxr/imaging/plugin/hdLuxCore/light.cpp:8-28 | Syncing twice from the same answers is syncing once. |
| Light.InitialSyncOverwritesAll | pxr/imaging/plugin/hdLuxCore/light.cpp:8-40 | The first sync overwrites the whole cache, so undetermined initial fields do not matter. |
| Light.Light.constructor | pxr/imaging/plugin/hdLuxCore/light.h:15-69 | Not created; intensity 1, exposure 1, colour (1,1,1); the light type is fixed. |
| Light.Light.GetCreated | pxr/imaging/plugin/hdLuxCore/light.h:50-52 | Returns the created flag. |
| Light.Light.SetCreated | pxr/imaging/plugin/hdLuxCore/light.h:54-56 | GetCreated returns the value last set. |
| Light.Light.Sync | pxr/imaging/plugin/hdLuxCore/light.cpp:8-28 | The cache becomes SyncedParams, and the created flag is unchanged. |
| Light.Light.Finalize | pxr/imaging/plugin/hdLuxCore/light.cpp:30-33 | Changes no state. |

## Behaviour worth knowing

These follow the code as written:

- **Instance count.** The mesh's instance count (`_total_instances`, mesh.h:251) is not set by the constructor. The model starts it at 0, so the first instanced sync deletes nothing.
- **Mesh creation from the render pass.** The render pass calls the public `CreateLuxCoreTriangleMesh` (renderPass.cpp:162; declared returning `bool` at mesh.h:149). It is never defined; only the private routine (mesh.cpp:151-185) is. Its result is an input per mesh (`created`) and it has no modelled effect. `RenderPass.NestedDefinitionBreaksEdit` shows why it cannot be the private routine: that routine opens a scene edit, and here one is already open.
- **Render-pass cached state.** The render pass never assigns its `_converged` flag or its AOV bindings after construction (renderPass.cpp:51, 54). `IsConverged` is modelled over whatever they hold.
- **Undetermined fields.** These fields are left undetermined by the constructors, as their default construction leaves them:
  - the render pass's cached inverse matrices (renderPass.h:103-104; the constructor sets the unrelated `_viewMatrix`/`_projMatrix`);
  - the light's transform and treat-as-point (light.h:63, 69);
  - the mesh's transform (mesh.h:260), until a dirty transform sets it.
- **Render-pass constructor signature.** The definition (renderPass.cpp:36-40) takes a render thread and a renderer that the declaration (renderPass.h:54-56) does not. The model's constructor takes neither.
- **Default descriptors for primvars.** The default descriptor of a primvar AOV whose name after the prefix is `depth` (or another depth or id name) never validates (`RenderDelegate.PrimvarDepthDescriptorRejected`). The validator reads the parsed name and demands Float32 or Int32, while the descriptor table gives Float32Vec3.
- **Mesh transform.** A dirty transform installs a fixed scale by 0.1, not the scene's transform (mesh.cpp:322).
- **Instance names.** Instance objects are named `id + to_string(i)`. The render pass binds n + 1 of them for a mesh with n transforms. The mesh sync binds n, or the single object `id` without an instancer.
- **Widths primvar.** The initial dirty mask leaves out the widths primvar.
- **One-element array clear values.** The validator's count rule (renderer.cpp:249) accepts an array holding one value, since its tuple count is 1. The clear then reads it through `VtValue::Get` of the scalar type (renderer.cpp:363-370), which does not see through an array and yields the zero default. So a `depth` binding with clear value `[2.5]` is cleared to 0 (`Renderer.OneElementArrayClearsToZero`). The colour AOV reads the array's element through `HdGetValueData` and is cleared as intended.

## Left out

- **LuxCore and Hydra internals.** The `Scene` and `RenderSession` objects, property strings, film readback, the scene delegate and the instancer are modelled only as the event log and as input values. `ComputeInstanceTransforms` is an input sequence.
- **Geometry algorithms.** Triangulation (`HdMeshUtil`) is a function parameter. Adjacency building and `Hd_SmoothNormals` are recorded as the data they were built from, not computed.
- **Subdivision.** Refinement has no code path in the source: the refine branch is empty.
- **Primvar sampler loop.** The loop over `_primvarSourceMap` at mesh.cpp:444-450 has an empty body, so it is not modelled.
- **Floating point.** The camera's origin, direction, up vector and field of view, and the matrix inverses, are not modelled. Matrices and colours are opaque values compared for equality. Floats are reals.
- **Viewport size.** The viewport size arrives as whole numbers; the float-to-unsigned conversion is not modelled.
- **Rendering and display.** `Render`, `_RenderTiles`, `GetCompletedSamples`, `SetCamera`, `SetScene`, the film readback and `glDrawPixels` are not modelled.
- **Concurrency.** The registry mutex and atomics, the scene version and the render thread are not modelled; the registry counter is sequential.
- **Logging.** All `cout` and `logit` output is left out.
- **Render buffers.** The render buffer class (renderBuffer.cpp) is not part of this model. `Aov.RenderBuffer` keeps only the size, format, convergence and last clear that the renderer and render pass touch. `Map`/`Unmap` are not modelled, and a clear is recorded as the one pixel value written everywhere.
- **Delegate start-up.** The LuxCore set-up in `_Initialize` (renderDelegate.cpp:95-116) is not modelled: the initial camera parse, the render configuration and the session creation. The session starts with an empty log.
- **Light accessors.** The accessors (`GetLightTransform`, `GetIntensity`, `GetExposure`, `GetColor`, `GetLightType`, `GetTreatAsPoint`) only return fields, which the model reads directly. Only `GetCreated` is a member.
- **Light parameter types.** A light parameter of the wrong type (`Get<T>` on another type) is not modelled: the delegate's answers are typed.
- **Mesh map order.** The render pass iterates its mesh map in hash-map order; the model takes that order as a given sequence.
- **Default topology scheme.** The default topology's scheme is taken to be Catmull-Clark, Hydra's default.
- **Clear value types.** Hydra's coding error on a `VtValue::Get` of the wrong type is not modelled; only the zero default it yields is (`Renderer.GetInt` and its siblings). An array clear value keeps only its element type, its size and its first element.
- **Test assets.** The `test/asset/*.py` scripts only write USD files and are not modelled.
- MeshSync.Mesh.PullDirtyItems: states the adjacency and normals validity flags only through the invariant they keep, not as exact values. The same holds for PullSceneData, RebuildPrototype, UpdatePrototype and Sync.
- MeshSync.Mesh.Sync: states the defined meshes only as "the mesh id is defined when the sync defines it", not as the exact new set. It does not restate the adjacency table or the computed normals beyond `Valid()`.
- Renderer.Renderer.MarkAovBuffersUnconverged: requires every binding to have a buffer, because the source dereferences each one without a check.
- RenderPass.RenderPass.Execute: `created` stands for the undefined public creation routine, so what that routine would send to LuxCore is not modelled.
- RenderPass.RenderPass.constructor: does not model the inverse matrices' initial values, which are undetermined.
- Light.Light.constructor: does not model the initial transform and treat-as-point, which are undetermined.
