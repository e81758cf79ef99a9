/**
 * The per-frame render pass: it re-sends the film size when the viewport
 * changes, resets the camera when the view or projection changes, and
 * binds one instance object to every mesh prototype that LuxCore does not
 * yet know, all inside one scene edit. It also answers whether the image
 * has converged.
 *
 * The inverse view and projection matrices arrive already inverted (the
 * inversion and the camera geometry derived from them are floating point
 * and not modelled); the viewport size arrives as whole numbers.
 */
module RenderPass {
  import opened Values
  import opened Aov
  import LuxCore
  import MeshSync

  /** Film size re-send: Pause, Parse film.width/film.height, Resume, only when the size differs. */
  function ViewportEvents(width: nat, height: nat, viewportWidth: nat, viewportHeight: nat): seq<LuxCore.Event> {
    if width != viewportWidth || height != viewportHeight then
      [LuxCore.Pause, LuxCore.ParseFilm(viewportWidth, viewportHeight), LuxCore.Resume]
    else []
  }

  /** Camera reset: Stop, one scene Parse of the camera, Start, only when a matrix differs. */
  function CameraEvents(inverseView: Matrix4, inverseProjection: Matrix4,
                        currentInverseView: Matrix4, currentInverseProjection: Matrix4): seq<LuxCore.Event> {
    if currentInverseView != inverseView || currentInverseProjection != inverseProjection then
      [LuxCore.Stop, LuxCore.ParseCamera(currentInverseView, currentInverseProjection), LuxCore.Start]
    else []
  }

  /** Whether the loop instantiates mesh k: LuxCore does not know it and its creation succeeded. */
  predicate Instantiated(m: MeshSync.Mesh, created: bool, defined: set<string>) {
    m.id !in defined && created
  }

  /** The number of objects the loop binds to a mesh: one more than its transforms, so never zero. */
  function InstanceCount(m: MeshSync.Mesh): nat {
    |m.GetTransforms()| + 1
  }

  /**
   * What the instantiation loop sends inside its edit: for every mesh it
   * instantiates, the objects id+"0" ... id+"n" bound to the mesh, where n
   * is the mesh's transform count.
   */
  function InstantiationBody(meshes: seq<MeshSync.Mesh>, created: seq<bool>, defined: set<string>): seq<LuxCore.Event>
    requires |created| == |meshes|
    decreases |meshes|
  {
    if meshes == [] then []
    else
      var k := |meshes| - 1;
      InstantiationBody(meshes[..k], created[..k], defined) +
      (if Instantiated(meshes[k], created[k], defined)
       then MeshSync.BindEvents(meshes[k].id, InstanceCount(meshes[k])) else [])
  }

  /** The scene's objects after the instantiation loop. */
  function InstantiationObjects(objects: set<string>, meshes: seq<MeshSync.Mesh>, created: seq<bool>,
                                defined: set<string>): set<string>
    requires |created| == |meshes|
    decreases |meshes|
  {
    if meshes == [] then objects
    else
      var k := |meshes| - 1;
      InstantiationObjects(objects, meshes[..k], created[..k], defined) +
      (if Instantiated(meshes[k], created[k], defined)
       then InstanceNames(meshes[k].id, InstanceCount(meshes[k])) else {})
  }

  /** Everything one frame sends, in order. */
  function FrameEvents(width: nat, height: nat, inverseView: Matrix4, inverseProjection: Matrix4,
                       viewportWidth: nat, viewportHeight: nat,
                       currentInverseView: Matrix4, currentInverseProjection: Matrix4,
                       meshes: seq<MeshSync.Mesh>, created: seq<bool>, defined: set<string>): seq<LuxCore.Event>
    requires |created| == |meshes|
  {
    ViewportEvents(width, height, viewportWidth, viewportHeight) +
    CameraEvents(inverseView, inverseProjection, currentInverseView, currentInverseProjection) +
    [LuxCore.Pause, LuxCore.BeginSceneEdit] +
    InstantiationBody(meshes, created, defined) +
    [LuxCore.EndSceneEdit, LuxCore.Resume]
  }

  /** The instantiation loop sends nothing but object bindings to instantiated meshes. */
  lemma {:induction false} InstantiationBodyOnlyBinds(meshes: seq<MeshSync.Mesh>, created: seq<bool>,
                                                      defined: set<string>, e: nat)
    requires |created| == |meshes|
    requires e < |InstantiationBody(meshes, created, defined)|
    ensures var ev := InstantiationBody(meshes, created, defined)[e];
      ev.ParseObject? && ev.material == MeshSync.MaterialName &&
      exists k :: 0 <= k < |meshes| && Instantiated(meshes[k], created[k], defined) && ev.shape == meshes[k].id
    decreases |meshes|
  {
    var k := |meshes| - 1;
    var prev := InstantiationBody(meshes[..k], created[..k], defined);
    var body := InstantiationBody(meshes, created, defined);
    if e < |prev| {
      InstantiationBodyOnlyBinds(meshes[..k], created[..k], defined, e);
      assert body[e] == prev[e];
      var j :| 0 <= j < k && Instantiated(meshes[..k][j], created[..k][j], defined) && body[e].shape == meshes[..k][j].id;
      assert meshes[..k][j] == meshes[j] && created[..k][j] == created[j];
    } else {
      assert Instantiated(meshes[k], created[k], defined);
      MeshSync.BindEventsAt(meshes[k].id, InstanceCount(meshes[k]), e - |prev|);
      assert body[e] == MeshSync.BindEvents(meshes[k].id, InstanceCount(meshes[k]))[e - |prev|];
    }
  }

  /** Meshes LuxCore already defines are skipped, as are meshes whose creation failed. */
  lemma {:induction false} NothingToInstantiate(meshes: seq<MeshSync.Mesh>, created: seq<bool>, defined: set<string>)
    requires |created| == |meshes|
    requires forall k :: 0 <= k < |meshes| ==> meshes[k].id in defined || !created[k]
    ensures InstantiationBody(meshes, created, defined) == []
    decreases |meshes|
  {
    if meshes != [] {
      var k := |meshes| - 1;
      NothingToInstantiate(meshes[..k], created[..k], defined);
    }
  }

  /**
   * Every instantiated mesh gets the objects id+"0" ... id+"n" (n its
   * transform count), so at least id+"0"; objects already in the scene stay.
   */
  lemma {:induction false} InstantiatedMeshesBound(objects: set<string>, meshes: seq<MeshSync.Mesh>,
                                                   created: seq<bool>, defined: set<string>, k: nat, i: nat)
    requires |created| == |meshes|
    requires k < |meshes| && Instantiated(meshes[k], created[k], defined)
    requires i <= |meshes[k].GetTransforms()|
    ensures InstanceName(meshes[k].id, i) in InstantiationObjects(objects, meshes, created, defined)
    ensures objects <= InstantiationObjects(objects, meshes, created, defined)
    decreases |meshes|
  {
    var last := |meshes| - 1;
    if k == last {
      InstanceNameInRange(meshes[k].id, InstanceCount(meshes[k]), i);
      ObjectsOnlyGrow(objects, meshes[..last], created[..last], defined);
    } else {
      assert meshes[..last][k] == meshes[k] && created[..last][k] == created[k];
      InstantiatedMeshesBound(objects, meshes[..last], created[..last], defined, k, i);
    }
  }

  /** The instantiation loop deletes nothing. */
  lemma {:induction false} ObjectsOnlyGrow(objects: set<string>, meshes: seq<MeshSync.Mesh>,
                                           created: seq<bool>, defined: set<string>)
    requires |created| == |meshes|
    ensures objects <= InstantiationObjects(objects, meshes, created, defined)
    decreases |meshes|
  {
    if meshes != [] {
      var k := |meshes| - 1;
      ObjectsOnlyGrow(objects, meshes[..k], created[..k], defined);
    }
  }

  /**
   * A frame opens and closes exactly one scene edit, and every object it
   * binds is bound inside it; the film and camera updates stay outside.
   */
  lemma FrameBalanced(width: nat, height: nat, inverseView: Matrix4, inverseProjection: Matrix4,
                      viewportWidth: nat, viewportHeight: nat,
                      currentInverseView: Matrix4, currentInverseProjection: Matrix4,
                      meshes: seq<MeshSync.Mesh>, created: seq<bool>, defined: set<string>)
    requires |created| == |meshes|
    ensures LuxCore.EditsBalanced(FrameEvents(width, height, inverseView, inverseProjection,
                                              viewportWidth, viewportHeight,
                                              currentInverseView, currentInverseProjection,
                                              meshes, created, defined))
  {
    var viewport := ViewportEvents(width, height, viewportWidth, viewportHeight);
    var camera := CameraEvents(inverseView, inverseProjection, currentInverseView, currentInverseProjection);
    var body := InstantiationBody(meshes, created, defined);
    forall e | 0 <= e < |body|
      ensures !body[e].BeginSceneEdit? && !body[e].EndSceneEdit?
    {
      InstantiationBodyOnlyBinds(meshes, created, defined, e);
    }
    LuxCore.EditBracketBalanced(body);
    LuxCore.NeutralEvents(false, viewport);
    LuxCore.NeutralEvents(false, camera);
    LuxCore.EditStateAppend(false, viewport, camera);
    var bracket := [LuxCore.Pause, LuxCore.BeginSceneEdit] + body + [LuxCore.EndSceneEdit, LuxCore.Resume];
    LuxCore.EditStateAppend(false, viewport + camera, bracket);
    assert viewport + camera + bracket ==
      FrameEvents(width, height, inverseView, inverseProjection, viewportWidth, viewportHeight,
                  currentInverseView, currentInverseProjection, meshes, created, defined);
  }

  /**
   * Once a frame has cached the viewport and the matrices, a second frame
   * with the same viewport and matrices re-sends neither the film size nor
   * the camera: it only opens the edit for the instantiation loop.
   */
  lemma SteadyFrame(width: nat, height: nat, inverseView: Matrix4, inverseProjection: Matrix4,
                    meshes: seq<MeshSync.Mesh>, created: seq<bool>, defined: set<string>)
    requires |created| == |meshes|
    ensures FrameEvents(width, height, inverseView, inverseProjection, width, height,
                        inverseView, inverseProjection, meshes, created, defined) ==
      [LuxCore.Pause, LuxCore.BeginSceneEdit] + InstantiationBody(meshes, created, defined) +
      [LuxCore.EndSceneEdit, LuxCore.Resume]
  {
  }

  /**
   * A camera reset sends no scene edit: a frame whose viewport is unchanged
   * and whose matrices changed begins with exactly Stop, Parse, Start.
   */
  lemma CameraResetShape(width: nat, height: nat, inverseView: Matrix4, inverseProjection: Matrix4,
                         currentInverseView: Matrix4, currentInverseProjection: Matrix4,
                         meshes: seq<MeshSync.Mesh>, created: seq<bool>, defined: set<string>)
    requires |created| == |meshes|
    requires currentInverseView != inverseView || currentInverseProjection != inverseProjection
    ensures var f := FrameEvents(width, height, inverseView, inverseProjection, width, height,
                                 currentInverseView, currentInverseProjection, meshes, created, defined);
      |f| >= 3 && f[..3] == [LuxCore.Stop, LuxCore.ParseCamera(currentInverseView, currentInverseProjection), LuxCore.Start]
  {
    var f := FrameEvents(width, height, inverseView, inverseProjection, width, height,
                         currentInverseView, currentInverseProjection, meshes, created, defined);
    assert f[..3] == CameraEvents(inverseView, inverseProjection, currentInverseView, currentInverseProjection);
  }

  /**
   * Were the mesh creation called from the loop to send the definition
   * bracket of the private creation routine, it would open a scene edit
   * while the loop's own edit is open, which the edit protocol refuses.
   */
  lemma NestedDefinitionBreaksEdit(id: string, points: seq<Vec3>, triangles: seq<Vec3i>)
    ensures LuxCore.EditState(true, MeshSync.MeshDefineEvents(id, points, triangles)) == None
  {
    var es := MeshSync.MeshDefineEvents(id, points, triangles);
    assert es[1..][0] == LuxCore.BeginSceneEdit;
  }

  class RenderPass {
    /** The viewport size of the last frame (unsigned int). */
    var width: nat
    var height: nat
    /** The inverse view and projection matrices of the last camera reset. */
    var inverseView: Matrix4
    var inverseProjection: Matrix4
    /** The AOV bindings; nothing ever assigns them after construction. */
    var aovBindings: seq<AovBinding>
    /** The cached convergence of the internal buffers; nothing ever assigns it after construction. */
    var converged: bool

    /**
     * Zero viewport, no bindings, not converged. The cached inverse
     * matrices are left undetermined, as their default construction leaves them.
     */
    constructor ()
      ensures width == 0 && height == 0
      ensures aovBindings == [] && !converged
    {
      width := 0;
      height := 0;
      aovBindings := [];
      converged := false;
    }

    /**
     * IsConverged: with no bindings, the cached flag; otherwise false
     * exactly when some binding has a buffer that is not converged (a
     * binding without a buffer is ignored).
     */
    method IsConverged() returns (r: bool)
      ensures |aovBindings| == 0 ==> r == converged
      ensures |aovBindings| > 0 ==>
        (r <==> forall i :: 0 <= i < |aovBindings| && aovBindings[i].renderBuffer != null ==>
                  aovBindings[i].renderBuffer.converged)
    {
      if |aovBindings| == 0 {
        return converged;
      }
      var i := 0;
      while i < |aovBindings|
        invariant 0 <= i <= |aovBindings|
        invariant forall j :: 0 <= j < i && aovBindings[j].renderBuffer != null ==>
          aovBindings[j].renderBuffer.converged
      {
        if aovBindings[i].renderBuffer != null && !aovBindings[i].renderBuffer.converged {
          return false;
        }
        i := i + 1;
      }
      return true;
    }

    /** The viewport check: re-sends the film size when it changed, then caches the viewport. */
    method UpdateViewport(session: LuxCore.Session, viewportWidth: nat, viewportHeight: nat)
      modifies this`width, this`height, session`log
      ensures width == viewportWidth && height == viewportHeight
      ensures session.log == old(session.log) + ViewportEvents(old(width), old(height), viewportWidth, viewportHeight)
    {
      if width != viewportWidth || height != viewportHeight {
        width := viewportWidth;
        height := viewportHeight;
        session.Pause();
        session.ParseFilm(width, height);
        session.Resume();
      }
    }

    /** The camera check: resets the camera when a matrix changed, then caches the matrices. */
    method UpdateCamera(session: LuxCore.Session, currentInverseView: Matrix4, currentInverseProjection: Matrix4)
      modifies this`inverseView, this`inverseProjection, session`log
      ensures inverseView == currentInverseView && inverseProjection == currentInverseProjection
      ensures session.log == old(session.log) +
        CameraEvents(old(inverseView), old(inverseProjection), currentInverseView, currentInverseProjection)
    {
      if currentInverseView != inverseView || currentInverseProjection != inverseProjection {
        inverseView := currentInverseView;
        inverseProjection := currentInverseProjection;
        session.Stop();
        session.ParseCamera(inverseView, inverseProjection);
        session.Start();
      }
    }

    /**
     * _Execute: the viewport check, the camera check and the instantiation
     * loop over the mesh map (in the map's iteration order). created[k] is
     * what CreateLuxCoreTriangleMesh returns for mesh k.
     */
    method Execute(session: LuxCore.Session, viewportWidth: nat, viewportHeight: nat,
                   currentInverseView: Matrix4, currentInverseProjection: Matrix4,
                   meshes: seq<MeshSync.Mesh>, created: seq<bool>)
      requires |created| == |meshes|
      modifies this`width, this`height, this`inverseView, this`inverseProjection
      modifies session`log, session`objects
      ensures width == viewportWidth && height == viewportHeight
      ensures inverseView == currentInverseView && inverseProjection == currentInverseProjection
      ensures session.log == old(session.log) +
        FrameEvents(old(width), old(height), old(inverseView), old(inverseProjection),
                    viewportWidth, viewportHeight, currentInverseView, currentInverseProjection,
                    meshes, created, old(session.meshes))
      ensures session.objects == InstantiationObjects(old(session.objects), meshes, created, old(session.meshes))
      ensures LuxCore.EditsBalanced(session.log[|old(session.log)|..])
    {
      ghost var log0 := session.log;
      ghost var width0, height0, view0, projection0 := width, height, inverseView, inverseProjection;
      UpdateViewport(session, viewportWidth, viewportHeight);
      UpdateCamera(session, currentInverseView, currentInverseProjection);
      session.Pause();
      session.BeginSceneEdit();
      InstantiateMeshes(session, meshes, created);
      session.EndSceneEdit();
      session.Resume();
      ghost var viewport := ViewportEvents(width0, height0, viewportWidth, viewportHeight);
      ghost var camera := CameraEvents(view0, projection0, currentInverseView, currentInverseProjection);
      ghost var body := InstantiationBody(meshes, created, session.meshes);
      assert session.log == log0 + viewport + camera + [LuxCore.Pause, LuxCore.BeginSceneEdit] + body +
        [LuxCore.EndSceneEdit, LuxCore.Resume];
      FrameBalanced(width0, height0, view0, projection0, viewportWidth, viewportHeight,
                    currentInverseView, currentInverseProjection, meshes, created, session.meshes);
      assert session.log[|log0|..] == viewport + camera + [LuxCore.Pause, LuxCore.BeginSceneEdit] + body +
        [LuxCore.EndSceneEdit, LuxCore.Resume];
    }

    /** The loop over the mesh map: binds id+"0" ... id+"n" for each mesh that is new to LuxCore and was created. */
    method InstantiateMeshes(session: LuxCore.Session, meshes: seq<MeshSync.Mesh>, created: seq<bool>)
      requires |created| == |meshes|
      modifies session`log, session`objects
      ensures session.log == old(session.log) + InstantiationBody(meshes, created, session.meshes)
      ensures session.objects == InstantiationObjects(old(session.objects), meshes, created, session.meshes)
    {
      var k := 0;
      while k < |meshes|
        invariant 0 <= k <= |meshes|
        invariant session.log == old(session.log) + InstantiationBody(meshes[..k], created[..k], session.meshes)
        invariant session.objects ==
          InstantiationObjects(old(session.objects), meshes[..k], created[..k], session.meshes)
      {
        var mesh := meshes[k];
        assert meshes[..k + 1][..k] == meshes[..k] && created[..k + 1][..k] == created[..k];
        if !session.IsMeshDefined(mesh.id) {
          if created[k] {
            MeshSync.BindInstances(session, mesh.id, |mesh.GetTransforms()| + 1);
          }
        }
        k := k + 1;
      }
      assert meshes[..k] == meshes && created[..k] == created;
    }
  }
}
