/**
 * The mesh prim: what it pulls from the scene delegate under each dirty
 * bit, how it resolves refinement and smooth normals, when it rebuilds the
 * LuxCore mesh (flattening the vertex buffer and defining the mesh), and
 * how it replaces the instance objects bound to the mesh.
 *
 * The scene delegate is a value holding what each of its getters returns.
 * Triangulation is a function parameter (HdMeshUtil is not part of this
 * model); the adjacency table and the smooth normals are recorded as the
 * data they were built from.
 */
module MeshSync {
  import opened Values
  import opened DirtyBits
  import LuxCore

  // PxOsdOpenSubdivTokens
  const SchemeNone: string := "none"
  const SchemeBilinear: string := "bilinear"
  const SchemeCatmullClark: string := "catmullClark"

  /** The material every bound object gets. */
  const MaterialName: string := "mat_red"

  /** Subdivision tags (creases, corners, boundary rules); only stored and copied. */
  datatype SubdivTags = SubdivTags(payload: seq<int>)

  /** HdMeshTopology: scheme, face arities, face vertex indices, subdivision tags, refine level. */
  datatype Topology = Topology(scheme: string, faceVertexCounts: seq<int>, faceVertexIndices: seq<int>,
                               subdivTags: SubdivTags, refineLevel: int)

  /** HdMeshTopology(): no faces, Catmull-Clark, no tags, refine level 0. */
  const DefaultTopology: Topology := Topology(SchemeCatmullClark, [], [], SubdivTags([]), 0)

  /** HdInterpolation */
  datatype Interpolation = Constant | Uniform | Varying | Vertex | FaceVarying | Instance

  /** A primvar value (VtValue): an array of float triples, another value, or nothing. */
  datatype PrimvarValue = Vec3Array(items: seq<Vec3>) | OtherValue(tag: nat) | EmptyValue

  /** VtValue::Get<VtVec3fArray>: the array, or an empty one when the value holds something else. */
  function AsPoints(v: PrimvarValue): (ps: seq<Vec3>)
    ensures v.Vec3Array? ==> ps == v.items
    ensures !v.Vec3Array? ==> ps == []
  {
    if v.Vec3Array? then v.items else []
  }

  /** An entry of the primvar cache. */
  datatype PrimvarSource = PrimvarSource(data: PrimvarValue, interpolation: Interpolation)

  /** A primvar descriptor: name and interpolation. */
  datatype PrimvarDescriptor = PrimvarDescriptor(name: string, interpolation: Interpolation)

  /** HdCullStyle */
  datatype CullStyle = DontCare | Nothing | Back | Front | BackUnlessDoubleSided | FrontUnlessDoubleSided

  /** HdMeshGeomStyle */
  datatype GeomStyle = GeomInvalid | Surf | EdgeOnSurf | Hull | EdgeOnHull | HullEdgeOnly | GeomPoints

  /** The first HdMeshReprDesc of the repr being synced. */
  datatype ReprDesc = ReprDesc(geomStyle: GeomStyle, flatShadingEnabled: bool)

  /** The vertex adjacency table, as the face data it was built from. */
  datatype Adjacency = NoAdjacency | AdjacencyOf(faceVertexCounts: seq<int>, faceVertexIndices: seq<int>)

  /** The computed smooth normals, as the adjacency and points they were computed from. */
  datatype SmoothNormals = NoNormals | NormalsOf(adjacency: Adjacency, points: seq<Vec3>)

  /** The adjacency table BuildAdjacencyTable makes from a topology. */
  function AdjacencyFor(t: Topology): Adjacency {
    AdjacencyOf(t.faceVertexCounts, t.faceVertexIndices)
  }

  /**
   * What the scene delegate answers for one mesh during one sync.
   */
  datatype SceneDelegate = SceneDelegate(
    /** Get(id, points) */
    points: PrimvarValue,
    /** GetMeshTopology */
    topology: Topology,
    /** GetSubdivTags */
    subdivTags: SubdivTags,
    /** GetDisplayStyle().refineLevel */
    displayRefineLevel: int,
    /** GetVisible */
    visible: bool,
    /** GetCullStyle */
    cullStyle: CullStyle,
    /** IsDoubleSided */
    doubleSided: bool,
    /** GetPrimvarDescriptors, every interpolation in turn */
    primvars: seq<PrimvarDescriptor>,
    /** GetPrimvar, by name */
    primvarValues: map<string, PrimvarValue>,
    /** GetExtComputationPrimvarDescriptors, every interpolation in turn */
    computedPrimvars: seq<PrimvarDescriptor>,
    /** GetComputedPrimvarValues: the computed values, by name */
    computedValues: map<string, PrimvarValue>,
    /** The instancer's ComputeInstanceTransforms for this mesh */
    instanceTransforms: seq<Matrix4>)

  /** GetPrimvar: the value of a primvar, empty when the delegate has none. */
  function PrimvarValueOf(d: SceneDelegate, name: string): PrimvarValue {
    if name in d.primvarValues then d.primvarValues[name] else EmptyValue
  }

  /** The fixed scale-by-0.1 matrix a dirty transform installs. */
  const TenthScale: Matrix4 := Scale(0.1)

  // ---------------------------------------------------------------------
  // Dirty bits

  /** GetInitialDirtyBitsMask: every item the first sync must pull. */
  function InitialDirtyBitsMask(): (mask: Bits)
    ensures mask & !AllSceneDirtyBits == 0
    ensures !IsSet(mask, NewRepr)
  {
    Clean | InitRepr | DirtyPoints | DirtyTopology | DirtyTransform | DirtyVisibility |
    DirtyCullStyle | DirtyDoubleSided | DirtyDisplayStyle | DirtySubdivTags |
    DirtyPrimvar | DirtyNormals | DirtyInstanceIndex
  }

  /**
   * The initial mask makes the first sync pull every item it knows about:
   * points, topology, subdivision tags, display style, transform,
   * visibility, cull style, double-sidedness, normals and every generic
   * primvar; widths are the one primvar it does not ask for.
   */
  lemma InitialMaskPullsEverything(name: string)
    requires name != Points && name != Normals && name != Widths
    ensures var mask := InitialDirtyBitsMask();
      && IsSet(mask, InitRepr) && IsSet(mask, DirtyInstanceIndex)
      && IsPrimvarDirty(mask, Points) && IsPrimvarDirty(mask, Normals) && IsPrimvarDirty(mask, name)
      && IsTopologyDirty(mask) && IsSubdivTagsDirty(mask) && IsDisplayStyleDirty(mask)
      && IsTransformDirty(mask) && IsVisibilityDirty(mask) && IsCullStyleDirty(mask)
      && IsDoubleSidedDirty(mask)
      && !IsPrimvarDirty(mask, Widths)
  {
  }

  /** _PropagateDirtyBits: adds nothing. */
  function PropagateDirtyBits(bits: Bits): (r: Bits)
    ensures r == bits
  {
    bits
  }

  // ---------------------------------------------------------------------
  // The primvar cache

  /**
   * The cache after _UpdatePrimvarSources over descriptors `ds`: every
   * dirty primvar except points is (re)stored with its value and
   * interpolation; later descriptors overwrite earlier ones.
   */
  function WithPrimvars(m: map<string, PrimvarSource>, ds: seq<PrimvarDescriptor>, d: SceneDelegate,
                        bits: Bits): map<string, PrimvarSource>
    decreases |ds|
  {
    if ds == [] then m
    else
      var prev := WithPrimvars(m, ds[..|ds| - 1], d, bits);
      var pv := ds[|ds| - 1];
      if IsPrimvarDirty(bits, pv.name) && pv.name != Points
      then prev[pv.name := PrimvarSource(PrimvarValueOf(d, pv.name), pv.interpolation)]
      else prev
  }

  /**
   * Entries are only added or replaced, never removed; an entry changes
   * only under a dirty descriptor of that name; points never enter the cache.
   */
  lemma {:induction false} WithPrimvarsFacts(m: map<string, PrimvarSource>, ds: seq<PrimvarDescriptor>,
                                             d: SceneDelegate, bits: Bits)
    ensures m.Keys <= WithPrimvars(m, ds, d, bits).Keys
    ensures Points in WithPrimvars(m, ds, d, bits) ==> Points in m && WithPrimvars(m, ds, d, bits)[Points] == m[Points]
    ensures forall name :: name in WithPrimvars(m, ds, d, bits) && (name !in m || WithPrimvars(m, ds, d, bits)[name] != m[name]) ==>
      exists i :: 0 <= i < |ds| && ds[i].name == name && IsPrimvarDirty(bits, name)
    decreases |ds|
  {
    if ds != [] {
      var init := ds[..|ds| - 1];
      WithPrimvarsFacts(m, init, d, bits);
      var r := WithPrimvars(m, ds, d, bits);
      var prev := WithPrimvars(m, init, d, bits);
      forall name | name in r && (name !in m || r[name] != m[name])
        ensures exists i :: 0 <= i < |ds| && ds[i].name == name && IsPrimvarDirty(bits, name)
      {
        if name == ds[|ds| - 1].name && IsPrimvarDirty(bits, name) && name != Points {
        } else {
          assert name in prev && prev[name] == r[name];
          var i :| 0 <= i < |init| && init[i].name == name && IsPrimvarDirty(bits, name);
          assert ds[i] == init[i];
        }
      }
    }
  }

  /** A dirty primvar other than points ends up in the cache, as the last descriptor of its name says. */
  lemma {:induction false} WithPrimvarsStoresLast(m: map<string, PrimvarSource>, ds: seq<PrimvarDescriptor>,
                                                  d: SceneDelegate, bits: Bits, i: nat)
    requires i < |ds| && IsPrimvarDirty(bits, ds[i].name) && ds[i].name != Points
    requires forall j :: i < j < |ds| ==> ds[j].name != ds[i].name
    ensures ds[i].name in WithPrimvars(m, ds, d, bits)
    ensures WithPrimvars(m, ds, d, bits)[ds[i].name] ==
      PrimvarSource(PrimvarValueOf(d, ds[i].name), ds[i].interpolation)
    decreases |ds|
  {
    if i < |ds| - 1 {
      var init := ds[..|ds| - 1];
      assert init[i] == ds[i];
      forall j | i < j < |init| ensures init[j].name != init[i].name {
        assert init[j] == ds[j];
      }
      WithPrimvarsStoresLast(m, init, d, bits, i);
    }
  }

  /** The descriptors whose primvar is dirty, in order. */
  function DirtyDescriptors(ds: seq<PrimvarDescriptor>, bits: Bits): (r: seq<PrimvarDescriptor>)
    ensures |r| <= |ds|
    decreases |ds|
  {
    if ds == [] then []
    else
      var prev := DirtyDescriptors(ds[..|ds| - 1], bits);
      if IsPrimvarDirty(bits, ds[|ds| - 1].name) then prev + [ds[|ds| - 1]] else prev
  }

  /** The filter keeps exactly the descriptors whose primvar is dirty. */
  lemma {:induction false} DirtyDescriptorsExact(ds: seq<PrimvarDescriptor>, bits: Bits, pv: PrimvarDescriptor)
    ensures pv in DirtyDescriptors(ds, bits) <==> pv in ds && IsPrimvarDirty(bits, pv.name)
    decreases |ds|
  {
    if ds != [] {
      var init := ds[..|ds| - 1];
      assert ds == init + [ds[|ds| - 1]];
      DirtyDescriptorsExact(init, bits, pv);
    }
  }

  /** The names of the dirty computed primvars that received a value, in order. */
  function ComputedNames(ds: seq<PrimvarDescriptor>, values: map<string, PrimvarValue>): (r: seq<string>)
    ensures |r| <= |ds|
    decreases |ds|
  {
    if ds == [] then []
    else
      var prev := ComputedNames(ds[..|ds| - 1], values);
      if ds[|ds| - 1].name in values then prev + [ds[|ds| - 1].name] else prev
  }

  /** A name is returned exactly when some descriptor carries it and a value was computed for it. */
  lemma {:induction false} ComputedNamesExact(ds: seq<PrimvarDescriptor>, values: map<string, PrimvarValue>, name: string)
    ensures name in ComputedNames(ds, values) <==> name in values && exists pv :: pv in ds && pv.name == name
    decreases |ds|
  {
    if ds != [] {
      var init := ds[..|ds| - 1];
      var last := ds[|ds| - 1];
      assert ds == init + [last];
      ComputedNamesExact(init, values, name);
      if name in values && last.name != name && (exists pv :: pv in ds && pv.name == name) {
        var pv :| pv in ds && pv.name == name;
        assert pv in init;
      }
    }
  }

  /** The cache after the computed primvars `ds` with values `values`: points are left out. */
  function WithComputed(m: map<string, PrimvarSource>, ds: seq<PrimvarDescriptor>,
                        values: map<string, PrimvarValue>): map<string, PrimvarSource>
    decreases |ds|
  {
    if ds == [] then m
    else
      var prev := WithComputed(m, ds[..|ds| - 1], values);
      var pv := ds[|ds| - 1];
      if pv.name in values && pv.name != Points
      then prev[pv.name := PrimvarSource(values[pv.name], pv.interpolation)]
      else prev
  }

  /**
   * The points after the pull step: computed points when a value was
   * computed for them, else the delegate's points when they are dirty,
   * else the cached ones.
   */
  function PulledPoints(ps: seq<Vec3>, d: SceneDelegate, bits: Bits): seq<Vec3> {
    var computed := ComputedNames(DirtyDescriptors(d.computedPrimvars, bits), d.computedValues);
    if Points in computed && Points in d.computedValues then AsPoints(d.computedValues[Points])
    else if IsPrimvarDirty(bits, Points) then AsPoints(d.points)
    else ps
  }

  // ---------------------------------------------------------------------
  // Pulled topology and draw styles

  /**
   * The topology after the pull step: a dirty topology replaces the faces
   * and scheme but keeps the refine level and subdivision tags; dirty tags
   * replace the tags only at a positive refine level; a dirty display style
   * sets the refine level.
   */
  function PulledTopology(t: Topology, d: SceneDelegate, bits: Bits): Topology {
    var replaced := if IsTopologyDirty(bits)
      then d.topology.(refineLevel := t.refineLevel).(subdivTags := t.subdivTags)
      else t;
    var tagged := if IsSubdivTagsDirty(bits) && replaced.refineLevel > 0
      then replaced.(subdivTags := d.subdivTags)
      else replaced;
    if IsDisplayStyleDirty(bits) then tagged.(refineLevel := d.displayRefineLevel) else tagged
  }

  /**
   * Field by field: scheme and faces come from the delegate exactly when the
   * topology is dirty; the tags only under their bit and with a positive
   * refine level (the level before the display style is pulled); the
   * refine level only under the display-style bit.
   */
  lemma PulledTopologyFields(t: Topology, d: SceneDelegate, bits: Bits)
    ensures var r := PulledTopology(t, d, bits);
      && r.scheme == (if IsTopologyDirty(bits) then d.topology.scheme else t.scheme)
      && r.faceVertexCounts == (if IsTopologyDirty(bits) then d.topology.faceVertexCounts else t.faceVertexCounts)
      && r.faceVertexIndices == (if IsTopologyDirty(bits) then d.topology.faceVertexIndices else t.faceVertexIndices)
      && r.subdivTags == (if IsSubdivTagsDirty(bits) && t.refineLevel > 0 then d.subdivTags else t.subdivTags)
      && r.refineLevel == (if IsDisplayStyleDirty(bits) then d.displayRefineLevel else t.refineLevel)
  {
  }

  /** Without a dirty topology the faces, and so the adjacency table built from them, stay the same. */
  lemma PulledTopologyKeepsFaces(t: Topology, d: SceneDelegate, bits: Bits)
    ensures !IsTopologyDirty(bits) ==> AdjacencyFor(PulledTopology(t, d, bits)) == AdjacencyFor(t)
  {
  }

  /** Step 2's refine decision: the surface style, a scheme other than none and a positive refine level. */
  predicate DoRefine(desc: ReprDesc, t: Topology) {
    desc.geomStyle == Surf && t.scheme != SchemeNone && t.refineLevel > 0
  }

  /** Step 2's smooth-normals decision: no flat shading, a scheme other than none and bilinear, no authored normals. */
  predicate WantsSmoothNormals(desc: ReprDesc, t: Topology, m: map<string, PrimvarSource>) {
    !desc.flatShadingEnabled && t.scheme != SchemeNone && t.scheme != SchemeBilinear && Normals !in m
  }

  /** The part of a mesh's state that steps 1 to 3 of a sync decide. */
  datatype PrototypeState = PrototypeState(
    points: seq<Vec3>, topology: Topology, primvarSourceMap: map<string, PrimvarSource>,
    transform: Matrix4, visible: bool, cullStyle: CullStyle, doubleSided: bool,
    smoothNormals: bool, refined: bool, triangulatedIndices: seq<Vec3i>)

  /** Step 1, first part: the computed primvars, then the points and the topology. */
  function PulledSceneData(p: PrototypeState, d: SceneDelegate, bits: Bits): PrototypeState {
    p.(points := PulledPoints(p.points, d, bits),
       topology := PulledTopology(p.topology, d, bits),
       primvarSourceMap := WithComputed(p.primvarSourceMap, DirtyDescriptors(d.computedPrimvars, bits), d.computedValues))
  }

  /** Step 1, continued: the transform (a fixed scale by 0.1), visibility, cull style and double-sidedness. */
  function PulledRenderState(p: PrototypeState, d: SceneDelegate, bits: Bits): PrototypeState {
    p.(transform := if IsTransformDirty(bits) then TenthScale else p.transform,
       visible := if IsVisibilityDirty(bits) then d.visible else p.visible,
       cullStyle := if IsCullStyleDirty(bits) then d.cullStyle else p.cullStyle,
       doubleSided := if IsDoubleSidedDirty(bits) then d.doubleSided else p.doubleSided)
  }

  /** Step 1, last: the authored primvars, when normals, widths or any generic primvar is dirty. */
  function PulledAuthoredPrimvars(p: PrototypeState, d: SceneDelegate, bits: Bits): PrototypeState {
    if IsPrimvarDirty(bits, Normals) || IsPrimvarDirty(bits, Widths) || IsPrimvarDirty(bits, PrimvarToken)
    then p.(primvarSourceMap := WithPrimvars(p.primvarSourceMap, d.primvars, d, bits))
    else p
  }

  /** Step 1 in full. */
  function PulledPrototype(p: PrototypeState, d: SceneDelegate, bits: Bits): PrototypeState {
    PulledAuthoredPrimvars(PulledRenderState(PulledSceneData(p, d, bits), d, bits), d, bits)
  }

  /** Step 3's rebuild decision, on the pulled state: the topology is dirty or the refine decision changed. */
  predicate Rebuilds(q: PrototypeState, bits: Bits, desc: ReprDesc) {
    IsTopologyDirty(bits) || DoRefine(desc, q.topology) != q.refined
  }

  /** Step 3 defines a LuxCore mesh: it rebuilds, and does not refine. */
  predicate DefinesMesh(q: PrototypeState, bits: Bits, desc: ReprDesc) {
    Rebuilds(q, bits, desc) && !DoRefine(desc, q.topology)
  }

  /** Step 2's smooth-normals decision, stored. */
  function WithDrawStyles(q: PrototypeState, desc: ReprDesc): PrototypeState {
    q.(smoothNormals := WantsSmoothNormals(desc, q.topology, q.primvarSourceMap))
  }

  /**
   * Step 3 under the refine decision `doRefine`: when the topology is
   * dirty or the decision changed, store it and, unrefined, triangulate the
   * current topology.
   */
  function Repopulated(q: PrototypeState, bits: Bits, doRefine: bool,
                       triangulate: Topology -> seq<Vec3i>): PrototypeState {
    if IsTopologyDirty(bits) || doRefine != q.refined then
      q.(refined := doRefine,
         triangulatedIndices := if doRefine then q.triangulatedIndices else triangulate(q.topology))
    else q
  }

  /** Steps 2 and 3 on the pulled state. */
  function ResolvedPrototype(q: PrototypeState, bits: Bits, desc: ReprDesc,
                             triangulate: Topology -> seq<Vec3i>): PrototypeState {
    Repopulated(WithDrawStyles(q, desc), bits, DoRefine(desc, q.topology), triangulate)
  }

  /** The prototype state after steps 1 to 3 of a sync. */
  function SyncedPrototype(p: PrototypeState, d: SceneDelegate, bits: Bits, desc: ReprDesc,
                           triangulate: Topology -> seq<Vec3i>): PrototypeState {
    ResolvedPrototype(PulledPrototype(p, d, bits), bits, desc, triangulate)
  }

  /** After a sync the refine flag always agrees with the refine decision on the synced topology. */
  lemma SyncedRefineAgrees(p: PrototypeState, d: SceneDelegate, bits: Bits, desc: ReprDesc,
                           triangulate: Topology -> seq<Vec3i>)
    ensures var r := SyncedPrototype(p, d, bits, desc, triangulate);
      r.refined == DoRefine(desc, r.topology)
  {
  }

  /** With no scene bit set, no primvar descriptor is dirty. */
  lemma {:induction false} NoDirtyDescriptors(ds: seq<PrimvarDescriptor>, bits: Bits)
    requires bits & AllSceneDirtyBits == 0
    ensures DirtyDescriptors(ds, bits) == []
    decreases |ds|
  {
    if ds != [] {
      NoDirtyDescriptors(ds[..|ds| - 1], bits);
      assert !IsPrimvarDirty(bits, ds[|ds| - 1].name);
    }
  }

  /**
   * A sync under no scene bit -- as after a sync, which cleans them all --
   * leaves the prototype exactly as the previous sync left it: nothing is
   * pulled, and the refine decision it recomputes is the one already in
   * place, so nothing is rebuilt.
   */
  lemma CleanResyncKeepsPrototype(p: PrototypeState, d: SceneDelegate, d2: SceneDelegate, bits: Bits, bits2: Bits,
                                  desc: ReprDesc, triangulate: Topology -> seq<Vec3i>)
    requires bits2 & AllSceneDirtyBits == 0
    ensures var r := SyncedPrototype(p, d, bits, desc, triangulate);
      && PulledPrototype(r, d2, bits2) == r
      && !Rebuilds(r, bits2, desc)
      && SyncedPrototype(r, d2, bits2, desc, triangulate) == r
  {
    var r := SyncedPrototype(p, d, bits, desc, triangulate);
    NoDirtyDescriptors(d2.computedPrimvars, bits2);
    assert PulledTopology(r.topology, d2, bits2) == r.topology;
    assert WithComputed(r.primvarSourceMap, DirtyDescriptors(d2.computedPrimvars, bits2), d2.computedValues) ==
      r.primvarSourceMap;
    assert !IsPrimvarDirty(bits2, Normals) && !IsPrimvarDirty(bits2, Widths) && !IsPrimvarDirty(bits2, PrimvarToken);
    assert PulledPoints(r.points, d2, bits2) == r.points;
    SyncedRefineAgrees(p, d, bits, desc, triangulate);
  }

  /** The initial dirty mask makes the first sync rebuild the prototype, whatever state it starts from. */
  lemma InitialSyncRebuilds(p: PrototypeState, d: SceneDelegate, desc: ReprDesc)
    ensures Rebuilds(PulledPrototype(p, d, InitialDirtyBitsMask()), InitialDirtyBitsMask(), desc)
  {
  }

  // ---------------------------------------------------------------------
  // Events sent to LuxCore

  /** Coordinate k of a point: x, y or z. */
  function Coord(p: Vec3, k: nat): real
    requires k < 3
  {
    if k == 0 then p.x else if k == 1 then p.y else p.z
  }

  /** The flattened vertex buffer: entry 3i+k is coordinate k of point i. */
  function Flatten(ps: seq<Vec3>): (r: seq<real>)
    ensures |r| == 3 * |ps|
    decreases |ps|
  {
    if ps == [] then []
    else
      var p := ps[|ps| - 1];
      Flatten(ps[..|ps| - 1]) + [p.x, p.y, p.z]
  }

  /** Entry 3i+k of the flattened buffer is coordinate k of point i. */
  lemma {:induction false} FlattenAt(ps: seq<Vec3>, i: nat, k: nat)
    requires i < |ps| && k < 3
    ensures Flatten(ps)[3 * i + k] == Coord(ps[i], k)
    decreases |ps|
  {
    var init := ps[..|ps| - 1];
    if i < |init| {
      FlattenAt(init, i, k);
      assert init[i] == ps[i];
    }
  }

  /** The mesh-definition bracket: Pause, BeginSceneEdit, DefineMesh, EndSceneEdit, Resume. */
  function MeshDefineEvents(id: string, points: seq<Vec3>, triangles: seq<Vec3i>): seq<LuxCore.Event> {
    [LuxCore.Pause, LuxCore.BeginSceneEdit,
     LuxCore.DefineMesh(id, |points|, |triangles|, Flatten(points), triangles),
     LuxCore.EndSceneEdit, LuxCore.Resume]
  }

  /** Deletion of the instance objects id+"0" ... id+"(n-1)". */
  function DeleteEvents(id: string, n: nat): (r: seq<LuxCore.Event>)
    ensures |r| == n
    decreases n
  {
    if n == 0 then [] else DeleteEvents(id, n - 1) + [LuxCore.DeleteObject(InstanceName(id, n - 1))]
  }

  /** Binding of the instance objects id+"0" ... id+"(n-1)" to the mesh id. */
  function BindEvents(id: string, n: nat): (r: seq<LuxCore.Event>)
    ensures |r| == n
    decreases n
  {
    if n == 0 then [] else BindEvents(id, n - 1) + [LuxCore.ParseObject(InstanceName(id, n - 1), id, MaterialName)]
  }

  /** Deletion event k removes instance id+k. */
  lemma {:induction false} DeleteEventsAt(id: string, n: nat, k: nat)
    requires k < n
    ensures DeleteEvents(id, n)[k] == LuxCore.DeleteObject(InstanceName(id, k))
    decreases n
  {
    if k < n - 1 {
      DeleteEventsAt(id, n - 1, k);
    }
  }

  /** Binding event k binds instance id+k to the mesh id. */
  lemma {:induction false} BindEventsAt(id: string, n: nat, k: nat)
    requires k < n
    ensures BindEvents(id, n)[k] == LuxCore.ParseObject(InstanceName(id, k), id, MaterialName)
    decreases n
  {
    if k < n - 1 {
      BindEventsAt(id, n - 1, k);
    }
  }

  /** What the instance step sends between its BeginSceneEdit and EndSceneEdit. */
  function InstanceEditBody(id: string, instanced: bool, previous: nat, transforms: seq<Matrix4>): seq<LuxCore.Event> {
    if instanced then DeleteEvents(id, previous) + BindEvents(id, |transforms|)
    else [LuxCore.SetMeshAppliedTransformation(id, Identity),
          LuxCore.UpdateObjectTransformation(id, Identity),
          LuxCore.ParseObject(id, id, MaterialName)]
  }

  /** The whole instance step. */
  function InstanceSyncEvents(id: string, instanced: bool, previous: nat, transforms: seq<Matrix4>): seq<LuxCore.Event> {
    [LuxCore.Pause, LuxCore.BeginSceneEdit] + InstanceEditBody(id, instanced, previous, transforms) +
    [LuxCore.EndSceneEdit, LuxCore.Resume]
  }

  /** The scene's objects after the instance step. */
  function InstanceObjects(objects: set<string>, id: string, instanced: bool, previous: nat,
                           transforms: seq<Matrix4>): set<string> {
    if instanced then (objects - InstanceNames(id, previous)) + InstanceNames(id, |transforms|)
    else objects + {id}
  }

  /** The instance step opens and closes one edit and mutates the scene only inside it. */
  lemma InstanceSyncBalanced(id: string, instanced: bool, previous: nat, transforms: seq<Matrix4>)
    ensures LuxCore.EditsBalanced(InstanceSyncEvents(id, instanced, previous, transforms))
  {
    var body := InstanceEditBody(id, instanced, previous, transforms);
    if instanced {
      var dels, binds := DeleteEvents(id, previous), BindEvents(id, |transforms|);
      forall k | 0 <= k < |body|
        ensures !body[k].BeginSceneEdit? && !body[k].EndSceneEdit?
      {
        if k < |dels| {
          DeleteEventsAt(id, previous, k);
          assert body[k] == dels[k];
        } else {
          BindEventsAt(id, |transforms|, k - |dels|);
          assert body[k] == binds[k - |dels|];
        }
      }
    }
    LuxCore.EditBracketBalanced(body);
  }

  /** The mesh-definition bracket is balanced. */
  lemma MeshDefineBalanced(id: string, points: seq<Vec3>, triangles: seq<Vec3i>)
    ensures LuxCore.EditsBalanced(MeshDefineEvents(id, points, triangles))
  {
    var body := [LuxCore.DefineMesh(id, |points|, |triangles|, Flatten(points), triangles)];
    assert MeshDefineEvents(id, points, triangles) == [LuxCore.Pause, LuxCore.BeginSceneEdit] + body + [LuxCore.EndSceneEdit, LuxCore.Resume];
    LuxCore.EditBracketBalanced(body);
  }

  /**
   * Everything a sync sends -- the mesh definition when one is made, then
   * the instance step -- is a balanced sequence of edits.
   */
  lemma SyncEventsBalanced(id: string, defines: bool, points: seq<Vec3>, triangles: seq<Vec3i>,
                           instanced: bool, previous: nat, transforms: seq<Matrix4>)
    ensures LuxCore.EditsBalanced((if defines then MeshDefineEvents(id, points, triangles) else []) +
                                  InstanceSyncEvents(id, instanced, previous, transforms))
  {
    MeshDefineBalanced(id, points, triangles);
    InstanceSyncBalanced(id, instanced, previous, transforms);
    LuxCore.BalancedAppend(if defines then MeshDefineEvents(id, points, triangles) else [],
                           InstanceSyncEvents(id, instanced, previous, transforms));
  }

  /**
   * After an instanced sync the objects id+"0" ... id+"(n-1)" exist for the
   * n new transforms, and no stale instance id+"j" with n <= j < previous
   * survives.
   */
  lemma InstancedObjectsExact(objects: set<string>, id: string, previous: nat, transforms: seq<Matrix4>, j: nat)
    ensures var after := InstanceObjects(objects, id, true, previous, transforms);
      && (j < |transforms| ==> InstanceName(id, j) in after)
      && (|transforms| <= j < previous ==> InstanceName(id, j) !in after)
  {
    if |transforms| <= j {
      InstanceNameOutsideRange(id, |transforms|, j);
      if j < previous {
        InstanceNameInRange(id, previous, j);
      }
    } else {
      InstanceNameInRange(id, |transforms|, j);
    }
  }

  // ---------------------------------------------------------------------
  // The mesh prim

  /** HdLuxCoreMesh */
  class Mesh {
    const id: string
    /** The instancer's path; empty when the mesh is not instanced. */
    const instancerId: string

    var points: seq<Vec3>
    var topology: Topology
    var triangulatedIndices: seq<Vec3i>
    var adjacency: Adjacency
    var adjacencyValid: bool
    var computedNormals: SmoothNormals
    var normalsValid: bool
    var refined: bool
    var smoothNormals: bool
    var doubleSided: bool
    var cullStyle: CullStyle
    var visible: bool
    var transform: Matrix4
    var primvarSourceMap: map<string, PrimvarSource>
    var totalInstances: nat
    /** _transforms: declared and never assigned, so always empty. */
    const transforms: seq<Matrix4> := []
    /** The repr tokens initialised so far. */
    var reprs: seq<string>

    /**
     * A valid adjacency table was built from the current faces; valid
     * normals were computed from the current table and points; smooth
     * normals are only on with both valid.
     */
    predicate Valid()
      reads this`adjacencyValid, this`adjacency, this`topology, this`normalsValid, this`computedNormals,
            this`points, this`smoothNormals
    {
      && AdjacencyCurrent()
      && NormalsCurrent()
      && (smoothNormals ==> normalsValid)
    }

    /** A valid adjacency table was built from the current faces. */
    predicate AdjacencyCurrent()
      reads this`adjacencyValid, this`adjacency, this`topology
    {
      adjacencyValid ==> adjacency == AdjacencyFor(topology)
    }

    /** Valid normals were computed from the current (valid) adjacency table and the current points. */
    predicate NormalsCurrent()
      reads this`normalsValid, this`adjacencyValid, this`computedNormals, this`adjacency, this`points
    {
      normalsValid ==> adjacencyValid && computedNormals == NormalsOf(adjacency, points)
    }

    /** The part of the state steps 1 to 3 of a sync decide. */
    function Prototype(): PrototypeState
      reads this`points, this`topology, this`primvarSourceMap, this`transform, this`visible, this`cullStyle,
            this`doubleSided, this`smoothNormals, this`refined, this`triangulatedIndices
    {
      PrototypeState(points, topology, primvarSourceMap, transform, visible, cullStyle, doubleSided,
                     smoothNormals, refined, triangulatedIndices)
    }

    /**
     * The prim's state fresh from construction; the instance count starts at
     * 0, and the prim starts visible as Hydra's shared rprim data does. The
     * transform, a default-constructed matrix, is left undetermined.
     */
    constructor (id: string, instancerId: string)
      ensures Valid()
      ensures this.id == id && this.instancerId == instancerId
      ensures !adjacencyValid && !normalsValid && !refined && !smoothNormals && !doubleSided
      ensures cullStyle == DontCare && totalInstances == 0 && primvarSourceMap == map[]
      ensures points == [] && topology == DefaultTopology && reprs == [] && visible
    {
      this.id := id;
      this.instancerId := instancerId;
      points := [];
      topology := DefaultTopology;
      triangulatedIndices := [];
      adjacency := NoAdjacency;
      adjacencyValid := false;
      computedNormals := NoNormals;
      normalsValid := false;
      refined := false;
      smoothNormals := false;
      doubleSided := false;
      cullStyle := DontCare;
      visible := true;
      primvarSourceMap := map[];
      totalInstances := 0;
      reprs := [];
    }

    /** GetTransforms: the cached transform list, which nothing ever fills. */
    function GetTransforms(): (r: seq<Matrix4>)
      ensures r == []
    {
      transforms
    }

    /** _InitRepr: adds an empty repr for the token unless one exists; the dirty bits are untouched. */
    method InitRepr(reprToken: string, bits: Bits) returns (newBits: Bits)
      modifies this`reprs
      ensures newBits == bits
      ensures reprToken in old(reprs) ==> reprs == old(reprs)
      ensures reprToken !in old(reprs) ==> reprs == old(reprs) + [reprToken]
    {
      var i := 0;
      while i < |reprs| && reprs[i] != reprToken
        invariant 0 <= i <= |reprs|
        invariant forall j :: 0 <= j < i ==> reprs[j] != reprToken
      {
        i := i + 1;
      }
      if i == |reprs| {
        reprs := reprs + [reprToken];
      }
      newBits := bits;
    }

    /** _UpdatePrimvarSources: caches every dirty primvar but points. */
    method UpdatePrimvarSources(d: SceneDelegate, bits: Bits)
      modifies this`primvarSourceMap
      ensures primvarSourceMap == WithPrimvars(old(primvarSourceMap), d.primvars, d, bits)
    {
      var i := 0;
      while i < |d.primvars|
        invariant 0 <= i <= |d.primvars|
        invariant primvarSourceMap == WithPrimvars(old(primvarSourceMap), d.primvars[..i], d, bits)
      {
        var pv := d.primvars[i];
        assert d.primvars[..i + 1][..i] == d.primvars[..i];
        if IsPrimvarDirty(bits, pv.name) && pv.name != Points {
          primvarSourceMap := primvarSourceMap[pv.name := PrimvarSource(PrimvarValueOf(d, pv.name), pv.interpolation)];
        }
        i := i + 1;
      }
      assert d.primvars[..|d.primvars|] == d.primvars;
    }

    /**
     * _UpdateComputedPrimvarSources: of the dirty computed primvars, those
     * with a computed value are returned by name; computed points replace
     * the points and invalidate the normals, the others go to the cache.
     */
    method UpdateComputedPrimvarSources(d: SceneDelegate, bits: Bits) returns (names: seq<string>)
      modifies this`points, this`normalsValid, this`primvarSourceMap
      ensures var dirty := DirtyDescriptors(d.computedPrimvars, bits);
        && names == ComputedNames(dirty, d.computedValues)
        && primvarSourceMap == WithComputed(old(primvarSourceMap), dirty, d.computedValues)
      ensures Points in names ==> Points in d.computedValues && points == AsPoints(d.computedValues[Points]) && !normalsValid
      ensures Points !in names ==> points == old(points) && normalsValid == old(normalsValid)
    {
      var dirty := FilterDirty(d.computedPrimvars, bits);
      if dirty == [] {
        return [];
      }
      names := [];
      var j := 0;
      while j < |dirty|
        invariant 0 <= j <= |dirty|
        invariant names == ComputedNames(dirty[..j], d.computedValues)
        invariant primvarSourceMap == WithComputed(old(primvarSourceMap), dirty[..j], d.computedValues)
        invariant Points in names ==> Points in d.computedValues && points == AsPoints(d.computedValues[Points]) && !normalsValid
        invariant Points !in names ==> points == old(points) && normalsValid == old(normalsValid)
      {
        var pv := dirty[j];
        assert dirty[..j + 1][..j] == dirty[..j];
        if pv.name !in d.computedValues {
          j := j + 1;
          continue;
        }
        names := names + [pv.name];
        if pv.name == Points {
          points := AsPoints(d.computedValues[pv.name]);
          normalsValid := false;
        } else {
          primvarSourceMap := primvarSourceMap[pv.name := PrimvarSource(d.computedValues[pv.name], pv.interpolation)];
        }
        j := j + 1;
      }
      assert dirty[..|dirty|] == dirty;
    }

    /**
     * Step 1 of _PopulateLuxCoreMesh, after the computed primvars: pull the
     * points and the topology. Points come from the delegate when dirty and
     * not already computed, and then invalidate the normals; a dirty
     * topology invalidates the adjacency table.
     */
    method PullGeometry(d: SceneDelegate, bits: Bits, pointsComputed: bool)
      modifies this`points, this`normalsValid, this`topology, this`adjacencyValid
      ensures !pointsComputed && IsPrimvarDirty(bits, Points) ==> points == AsPoints(d.points) && !normalsValid
      ensures pointsComputed || !IsPrimvarDirty(bits, Points) ==>
        points == old(points) && normalsValid == old(normalsValid)
      ensures topology == PulledTopology(old(topology), d, bits)
      ensures adjacencyValid == (old(adjacencyValid) && !IsTopologyDirty(bits))
    {
      if !pointsComputed && IsPrimvarDirty(bits, Points) {
        points := AsPoints(d.points);
        normalsValid := false;
      }
      topology := PulledTopology(topology, d, bits);
      if IsTopologyDirty(bits) {
        adjacencyValid := false;
      }
    }

    /** Step 1, continued: the transform (a fixed scale by 0.1), visibility, cull style and double-sidedness. */
    method PullRenderState(d: SceneDelegate, bits: Bits)
      modifies this`transform, this`visible, this`cullStyle, this`doubleSided
      ensures Prototype() == PulledRenderState(old(Prototype()), d, bits)
    {
      if IsTransformDirty(bits) {
        transform := TenthScale;
      }
      if IsVisibilityDirty(bits) {
        visible := d.visible;
      }
      if IsCullStyleDirty(bits) {
        cullStyle := d.cullStyle;
      }
      if IsDoubleSidedDirty(bits) {
        doubleSided := d.doubleSided;
      }
    }

    /**
     * Step 2: refine exactly for the surface style, a scheme other than
     * none, and a positive refine level; smooth normals exactly without flat
     * shading, for a scheme other than none and bilinear, and with no
     * authored normals cached.
     */
    method ResolveDrawStyles(desc: ReprDesc) returns (doRefine: bool)
      modifies this`smoothNormals
      ensures doRefine == DoRefine(desc, topology)
      ensures Prototype() == WithDrawStyles(old(Prototype()), desc)
    {
      doRefine := desc.geomStyle == Surf;
      doRefine := doRefine && topology.scheme != SchemeNone;
      doRefine := doRefine && topology.refineLevel > 0;
      smoothNormals := !desc.flatShadingEnabled;
      smoothNormals := smoothNormals && topology.scheme != SchemeNone && topology.scheme != SchemeBilinear;
      var authoredNormals := false;
      if Normals in primvarSourceMap {
        authoredNormals := true;
      }
      smoothNormals := smoothNormals && !authoredNormals;
    }

    /**
     * _CreateLuxCoreTriangleMesh: triangulates the current topology,
     * flattens the points and defines the mesh inside one edit.
     */
    method CreateLuxCoreTriangleMesh(session: LuxCore.Session, triangulate: Topology -> seq<Vec3i>)
      modifies this`triangulatedIndices, session`log, session`meshes
      ensures triangulatedIndices == triangulate(topology)
      ensures session.log == old(session.log) + MeshDefineEvents(id, points, triangulatedIndices)
      ensures session.meshes == old(session.meshes) + {id}
      ensures session.objects == old(session.objects)
    {
      triangulatedIndices := triangulate(topology);
      var vertices := CopyVertices(points);
      session.Pause();
      session.BeginSceneEdit();
      session.DefineMesh(id, |points|, |triangulatedIndices|, vertices[..], triangulatedIndices);
      session.EndSceneEdit();
      session.Resume();
    }

    /**
     * Step 3: rebuild the mesh exactly when the topology is dirty or the
     * refine decision changed. Only the unrefined branch defines a mesh
     * (there is no subdivision-surface path). A rebuild invalidates the normals.
     */
    method PopulatePrototype(session: LuxCore.Session, bits: Bits, doRefine: bool,
                             triangulate: Topology -> seq<Vec3i>) returns (newMesh: bool)
      modifies this`triangulatedIndices, this`refined, this`normalsValid, session`log, session`meshes
      ensures Prototype() == Repopulated(old(Prototype()), bits, doRefine, triangulate)
      ensures newMesh <==> IsTopologyDirty(bits) || doRefine != old(refined)
      ensures normalsValid == (old(normalsValid) && !newMesh)
      ensures session.log == old(session.log) +
        (if newMesh && !doRefine then MeshDefineEvents(id, points, triangulatedIndices) else [])
      ensures session.meshes == if newMesh && !doRefine then old(session.meshes) + {id} else old(session.meshes)
      ensures session.objects == old(session.objects)
    {
      newMesh := false;
      if IsTopologyDirty(bits) || doRefine != refined {
        newMesh := true;
        if doRefine {
          // no subdivision surfaces yet
        } else {
          CreateLuxCoreTriangleMesh(session, triangulate);
        }
        refined := doRefine;
        normalsValid := false;
      }
    }

    /**
     * The smooth-normals steps: with smooth normals on, rebuild a stale
     * adjacency table (which invalidates the normals), then recompute
     * stale normals.
     */
    method UpdateSmoothNormals()
      requires AdjacencyCurrent() && NormalsCurrent()
      modifies this`adjacency, this`adjacencyValid, this`computedNormals, this`normalsValid
      ensures AdjacencyCurrent() && NormalsCurrent()
      ensures smoothNormals ==> adjacencyValid && normalsValid
      ensures smoothNormals && !old(adjacencyValid) ==>
        adjacency == AdjacencyFor(topology) && computedNormals == NormalsOf(adjacency, points)
      ensures smoothNormals && old(adjacencyValid) && !old(normalsValid) ==>
        adjacency == old(adjacency) && computedNormals == NormalsOf(adjacency, points)
      ensures smoothNormals && old(adjacencyValid) && old(normalsValid) ==>
        adjacency == old(adjacency) && computedNormals == old(computedNormals)
      ensures !smoothNormals ==>
        adjacency == old(adjacency) && adjacencyValid == old(adjacencyValid) &&
        computedNormals == old(computedNormals) && normalsValid == old(normalsValid)
    {
      if smoothNormals && !adjacencyValid {
        adjacency := AdjacencyFor(topology);
        adjacencyValid := true;
        normalsValid := false;
      }
      if smoothNormals && !normalsValid {
        computedNormals := NormalsOf(adjacency, points);
        normalsValid := true;
      }
    }

    /**
     * Step 4: inside one edit, replace the instance objects: with an
     * instancer, delete the previous instances and bind one object per
     * instance transform; without, bind the single object named id.
     */
    method PopulateInstances(session: LuxCore.Session, d: SceneDelegate)
      modifies this`totalInstances, session`log, session`objects
      ensures session.log == old(session.log) +
        InstanceSyncEvents(id, instancerId != "", old(totalInstances), d.instanceTransforms)
      ensures session.objects ==
        InstanceObjects(old(session.objects), id, instancerId != "", old(totalInstances), d.instanceTransforms)
      ensures session.meshes == old(session.meshes)
      ensures totalInstances == if instancerId != "" then |d.instanceTransforms| else 0
    {
      var previous := totalInstances;
      ghost var body := InstanceEditBody(id, instancerId != "", previous, d.instanceTransforms);
      session.Pause();
      session.BeginSceneEdit();
      var transforms := ReplaceInstances(session, previous, d.instanceTransforms);
      session.EndSceneEdit();
      session.Resume();
      EditBracketAppend(old(session.log), body);
      totalInstances := |transforms|;
    }

    /**
     * The edit body of step 4. With an instancer: delete the previous
     * instances, bind one object per transform and keep the transforms;
     * without: bind the single object id and keep no transforms.
     */
    method ReplaceInstances(session: LuxCore.Session, previous: nat, instanceTransforms: seq<Matrix4>)
      returns (transforms: seq<Matrix4>)
      modifies session`log, session`objects
      ensures session.log == old(session.log) + InstanceEditBody(id, instancerId != "", previous, instanceTransforms)
      ensures session.objects == InstanceObjects(old(session.objects), id, instancerId != "", previous, instanceTransforms)
      ensures transforms == if instancerId != "" then instanceTransforms else []
    {
      if instancerId != "" {
        transforms := instanceTransforms;
        ghost var before := session.log;
        DeleteInstances(session, id, previous);
        BindInstances(session, id, |transforms|);
        AppendAssociative(before, DeleteEvents(id, previous), BindEvents(id, |transforms|));
      } else {
        transforms := [];
        session.SetMeshAppliedTransformation(id, Identity);
        session.UpdateObjectTransformation(id, Identity);
        session.ParseObject(id, id, MaterialName);
      }
    }

    /**
     * Step 1 in full: the computed primvars first, then the points and
     * topology, the render state, and last the primvar cache. Afterwards the
     * adjacency table is current, and valid normals match the current
     * points and table, which is itself valid unless the topology was dirty.
     */
    method PullDirtyItems(d: SceneDelegate, bits: Bits)
      requires AdjacencyCurrent() && NormalsCurrent()
      modifies this
      ensures unchanged(this`adjacency, this`computedNormals, this`totalInstances, this`reprs)
      ensures AdjacencyCurrent()
      ensures normalsValid ==>
        computedNormals == NormalsOf(adjacency, points) && (adjacencyValid || IsTopologyDirty(bits))
      ensures Prototype() == PulledPrototype(old(Prototype()), d, bits)
    {
      PullSceneData(d, bits);
      PullRenderState(d, bits);
      PullPrimvars(d, bits);
    }

    /** Step 1, first part: the computed primvars, then the points and the topology. */
    method PullSceneData(d: SceneDelegate, bits: Bits)
      requires AdjacencyCurrent() && NormalsCurrent()
      modifies this`points, this`normalsValid, this`primvarSourceMap, this`topology, this`adjacencyValid
      ensures AdjacencyCurrent()
      ensures normalsValid ==>
        computedNormals == NormalsOf(adjacency, points) && (adjacencyValid || IsTopologyDirty(bits))
      ensures Prototype() == PulledSceneData(old(Prototype()), d, bits)
    {
      var computed := UpdateComputedPrimvarSources(d, bits);
      assert NormalsCurrent();
      PullGeometry(d, bits, Points in computed);
      PulledTopologyKeepsFaces(old(topology), d, bits);
    }

    /** Step 1, last: the primvar cache, when normals, widths or any generic primvar is dirty. */
    method PullPrimvars(d: SceneDelegate, bits: Bits)
      modifies this`primvarSourceMap
      ensures Prototype() == PulledAuthoredPrimvars(old(Prototype()), d, bits)
    {
      if IsPrimvarDirty(bits, Normals) || IsPrimvarDirty(bits, Widths) || IsPrimvarDirty(bits, PrimvarToken) {
        UpdatePrimvarSources(d, bits);
      }
    }

    /**
     * Steps 2 and 3 and the smooth normals: resolve the draw styles,
     * rebuild the prototype when needed and bring the normals up to date.
     * A mesh is defined exactly when the prototype is rebuilt unrefined.
     */
    method RebuildPrototype(session: LuxCore.Session, bits: Bits, desc: ReprDesc,
                            triangulate: Topology -> seq<Vec3i>) returns (defined: bool)
      requires AdjacencyCurrent()
      requires normalsValid ==>
        computedNormals == NormalsOf(adjacency, points) && (adjacencyValid || IsTopologyDirty(bits))
      modifies this, session
      ensures unchanged(this`totalInstances, this`reprs, session`objects)
      ensures AdjacencyCurrent() && NormalsCurrent() && (smoothNormals ==> normalsValid)
      ensures Prototype() == ResolvedPrototype(old(Prototype()), bits, desc, triangulate)
      ensures defined <==> DefinesMesh(old(Prototype()), bits, desc)
      ensures defined ==> id in session.meshes
      ensures session.log == old(session.log) +
        (if defined then MeshDefineEvents(id, points, triangulatedIndices) else [])
    {
      var doRefine := ResolveDrawStyles(desc);
      var newMesh := PopulatePrototype(session, bits, doRefine, triangulate);
      assert NormalsCurrent();
      UpdateSmoothNormals();
      defined := newMesh && !doRefine;
    }

    /**
     * Steps 1 to 3: pull the dirty items, then rebuild the prototype when
     * needed. The mesh is defined exactly when it is rebuilt unrefined.
     */
    method UpdatePrototype(session: LuxCore.Session, d: SceneDelegate, bits: Bits, desc: ReprDesc,
                           triangulate: Topology -> seq<Vec3i>) returns (defined: bool)
      requires AdjacencyCurrent() && NormalsCurrent()
      modifies this, session
      ensures unchanged(this`totalInstances, this`reprs, session`objects)
      ensures AdjacencyCurrent() && NormalsCurrent() && (smoothNormals ==> normalsValid)
      ensures Prototype() == SyncedPrototype(old(Prototype()), d, bits, desc, triangulate)
      ensures defined <==> DefinesMesh(PulledPrototype(old(Prototype()), d, bits), bits, desc)
      ensures defined ==> id in session.meshes
      ensures session.log == old(session.log) +
        (if defined then MeshDefineEvents(id, points, triangulatedIndices) else [])
    {
      PullDirtyItems(d, bits);
      defined := RebuildPrototype(session, bits, desc, triangulate);
    }

    /**
     * Sync (_PopulateLuxCoreMesh with the repr's first descriptor): update
     * the prototype, replace the instances, and clean every scene dirty bit.
     * LuxCore receives the mesh definition, when the prototype is rebuilt
     * unrefined, and then the instance step.
     */
    method Sync(session: LuxCore.Session, d: SceneDelegate, bits: Bits, desc: ReprDesc,
                triangulate: Topology -> seq<Vec3i>) returns (newBits: Bits)
      requires Valid()
      modifies this, session
      ensures unchanged(this`reprs)
      ensures Valid()
      ensures newBits == CleanSceneBits(bits)
      ensures Prototype() == SyncedPrototype(old(Prototype()), d, bits, desc, triangulate)
      ensures DefinesMesh(PulledPrototype(old(Prototype()), d, bits), bits, desc) ==> id in session.meshes
      ensures totalInstances == if instancerId != "" then |d.instanceTransforms| else 0
      ensures session.objects ==
        InstanceObjects(old(session.objects), id, instancerId != "", old(totalInstances), d.instanceTransforms)
      ensures session.log == old(session.log) +
        (if DefinesMesh(PulledPrototype(old(Prototype()), d, bits), bits, desc)
         then MeshDefineEvents(id, points, triangulatedIndices) else []) +
        InstanceSyncEvents(id, instancerId != "", old(totalInstances), d.instanceTransforms)
    {
      var defined := UpdatePrototype(session, d, bits, desc, triangulate);
      PopulateInstances(session, d);
      newBits := bits & !AllSceneDirtyBits;
    }

    /** Finalize: inside one edit, deletes the object named id if a mesh of that name is defined. */
    method Finalize(session: LuxCore.Session)
      modifies session
      ensures session.log == old(session.log) +
        (if id in old(session.meshes)
         then [LuxCore.BeginSceneEdit, LuxCore.DeleteObject(id), LuxCore.EndSceneEdit]
         else [LuxCore.BeginSceneEdit, LuxCore.EndSceneEdit])
      ensures session.objects == if id in old(session.meshes) then old(session.objects) - {id} else old(session.objects)
      ensures session.meshes == old(session.meshes)
    {
      session.BeginSceneEdit();
      if session.IsMeshDefined(id) {
        session.DeleteObject(id);
      }
      session.EndSceneEdit();
    }
  }

  /** Appending a bracket one event at a time appends the whole bracket. */
  lemma EditBracketAppend(log: seq<LuxCore.Event>, body: seq<LuxCore.Event>)
    ensures log + [LuxCore.Pause] + [LuxCore.BeginSceneEdit] + body + [LuxCore.EndSceneEdit] + [LuxCore.Resume] ==
      log + ([LuxCore.Pause, LuxCore.BeginSceneEdit] + body + [LuxCore.EndSceneEdit, LuxCore.Resume])
  {
  }

  /** Sequence concatenation is associative. */
  lemma AppendAssociative<T>(a: seq<T>, b: seq<T>, c: seq<T>)
    ensures (a + b) + c == a + (b + c)
  {
  }

  /** The first loop of _UpdateComputedPrimvarSources: the descriptors whose primvar is dirty, in order. */
  method FilterDirty(ds: seq<PrimvarDescriptor>, bits: Bits) returns (dirty: seq<PrimvarDescriptor>)
    ensures dirty == DirtyDescriptors(ds, bits)
  {
    dirty := [];
    var i := 0;
    while i < |ds|
      invariant 0 <= i <= |ds|
      invariant dirty == DirtyDescriptors(ds[..i], bits)
    {
      assert ds[..i + 1][..i] == ds[..i];
      if IsPrimvarDirty(bits, ds[i].name) {
        dirty := dirty + [ds[i]];
      }
      i := i + 1;
    }
    assert ds[..|ds|] == ds;
  }

  /** The deletion loop of the instance step: removes id+"0" ... id+"(n-1)". */
  method DeleteInstances(session: LuxCore.Session, id: string, n: nat)
    modifies session`log, session`objects
    ensures session.log == old(session.log) + DeleteEvents(id, n)
    ensures session.objects == old(session.objects) - InstanceNames(id, n)
  {
    var i := 0;
    while i < n
      invariant 0 <= i <= n
      invariant session.log == old(session.log) + DeleteEvents(id, i)
      invariant session.objects == old(session.objects) - InstanceNames(id, i)
    {
      session.DeleteObject(InstanceName(id, i));
      assert DeleteEvents(id, i + 1) == DeleteEvents(id, i) + [LuxCore.DeleteObject(InstanceName(id, i))];
      assert InstanceNames(id, i + 1) == InstanceNames(id, i) + {InstanceName(id, i)};
      i := i + 1;
    }
  }

  /** The binding loop of the instance step: binds id+"0" ... id+"(n-1)" to the mesh id. */
  method BindInstances(session: LuxCore.Session, id: string, n: nat)
    modifies session`log, session`objects
    ensures session.log == old(session.log) + BindEvents(id, n)
    ensures session.objects == old(session.objects) + InstanceNames(id, n)
  {
    var i := 0;
    while i < n
      invariant 0 <= i <= n
      invariant session.log == old(session.log) + BindEvents(id, i)
      invariant session.objects == old(session.objects) + InstanceNames(id, i)
    {
      session.ParseObject(InstanceName(id, i), id, MaterialName);
      assert BindEvents(id, i + 1) == BindEvents(id, i) + [LuxCore.ParseObject(InstanceName(id, i), id, MaterialName)];
      assert InstanceNames(id, i + 1) == InstanceNames(id, i) + {InstanceName(id, i)};
      i := i + 1;
    }
  }

  /** The vertex copy of _CreateLuxCoreTriangleMesh: three floats per point into a new buffer. */
  method CopyVertices(points: seq<Vec3>) returns (vertices: array<real>)
    ensures vertices[..] == Flatten(points)
  {
    vertices := new real[3 * |points|];
    var i := 0;
    while i < |points|
      invariant 0 <= i <= |points|
      invariant vertices[..3 * i] == Flatten(points[..i])
    {
      assert points[..i + 1][..i] == points[..i];
      vertices[3 * i + 0] := points[i].x;
      vertices[3 * i + 1] := points[i].y;
      vertices[3 * i + 2] := points[i].z;
      assert vertices[..3 * (i + 1)] == vertices[..3 * i] + [points[i].x, points[i].y, points[i].z];
      i := i + 1;
    }
    assert points[..|points|] == points;
    assert vertices[..] == vertices[..3 * |points|];
  }

}
