/**
 * The LuxCore scene and render session, seen from the delegate: every call
 * the delegate makes is recorded as one event in a log, and the two facts the
 * delegate can query back (which meshes are defined, which objects exist)
 * are kept beside the log.
 *
 * Property strings, film readback and the renderer's own sampling are not
 * modelled; a Parse call is recorded by what it defines.
 */
module LuxCore {
  import opened Values

  datatype Event =
    | Pause
    | Resume
    | Stop
    | Start
    | BeginSceneEdit
    | EndSceneEdit
      /** session Parse of film.width / film.height */
    | ParseFilm(width: nat, height: nat)
      /** scene Parse of the scene.camera.* properties derived from the two inverse matrices */
    | ParseCamera(inverseView: Matrix4, inverseProjection: Matrix4)
    | DefineMesh(name: string, pointCount: nat, triangleCount: nat,
                 vertices: seq<real>, triangles: seq<Vec3i>)
    | DeleteObject(name: string)
      /** scene Parse of scene.objects.<name>.shape and .material */
    | ParseObject(name: string, shape: string, material: string)
    | SetMeshAppliedTransformation(name: string, m: Matrix4)
    | UpdateObjectTransformation(name: string, m: Matrix4)

  /**
   * The events that change the renderer's scene objects and meshes, which
   * the edit protocol confines to a scene edit. The film and camera parses
   * are not among them: the film size is sent while the session is paused
   * and the camera while it is stopped (renderPass.cpp:104-148), never
   * inside an edit.
   */
  predicate IsSceneMutation(e: Event) {
    e.DefineMesh? || e.DeleteObject? || e.ParseObject? ||
    e.SetMeshAppliedTransformation? || e.UpdateObjectTransformation?
  }

  /**
   * One step of the scene-edit protocol: edits are not nested, an edit is
   * closed only when open, and scene mutations happen only inside an edit.
   * `open` says whether an edit is open; None means the protocol is broken.
   */
  function EditStep(open: bool, e: Event): (r: Option<bool>)
    ensures r == None <==>
      (e.BeginSceneEdit? && open) || (e.EndSceneEdit? && !open) || (IsSceneMutation(e) && !open)
    ensures r.Some? && !e.BeginSceneEdit? && !e.EndSceneEdit? ==> r.value == open
  {
    if e.BeginSceneEdit? then (if open then None else Some(true))
    else if e.EndSceneEdit? then (if open then Some(false) else None)
    else if IsSceneMutation(e) && !open then None
    else Some(open)
  }

  /** The protocol run over a sequence of events, starting from `open`. */
  function EditState(open: bool, es: seq<Event>): Option<bool>
    decreases |es|
  {
    if es == [] then Some(open)
    else match EditStep(open, es[0])
      case None => None
      case Some(o) => EditState(o, es[1..])
  }

  /** Starting and ending outside an edit, with every mutation inside one. */
  predicate EditsBalanced(es: seq<Event>) {
    EditState(false, es) == Some(false)
  }

  /** The protocol composes over concatenation. */
  lemma {:induction false} EditStateAppend(open: bool, a: seq<Event>, b: seq<Event>)
    ensures EditState(open, a + b) ==
      match EditState(open, a)
      case None => None
      case Some(o) => EditState(o, b)
    decreases |a|
  {
    if a == [] {
      assert a + b == b;
    } else {
      assert (a + b)[0] == a[0];
      assert (a + b)[1..] == a[1..] + b;
      match EditStep(open, a[0])
      case None =>
      case Some(o) => EditStateAppend(o, a[1..], b);
    }
  }

  /** Balanced pieces put side by side stay balanced. */
  lemma BalancedAppend(a: seq<Event>, b: seq<Event>)
    requires EditsBalanced(a) && EditsBalanced(b)
    ensures EditsBalanced(a + b)
  {
    EditStateAppend(false, a, b);
  }

  /** Events that neither open, close nor mutate leave the protocol where it was. */
  lemma {:induction false} NeutralEvents(open: bool, es: seq<Event>)
    requires forall k :: 0 <= k < |es| ==>
      !es[k].BeginSceneEdit? && !es[k].EndSceneEdit? && !IsSceneMutation(es[k])
    ensures EditState(open, es) == Some(open)
    decreases |es|
  {
    if es != [] {
      NeutralEvents(open, es[1..]);
    }
  }

  /** Mutations inside an open edit keep it open. */
  lemma {:induction false} MutationsWhileOpen(es: seq<Event>)
    requires forall k :: 0 <= k < |es| ==>
      !es[k].BeginSceneEdit? && !es[k].EndSceneEdit?
    ensures EditState(true, es) == Some(true)
    decreases |es|
  {
    if es != [] {
      MutationsWhileOpen(es[1..]);
    }
  }

  /** `[Pause, BeginSceneEdit] + body + [EndSceneEdit, Resume]` for a body that opens and closes nothing. */
  lemma EditBracketBalanced(body: seq<Event>)
    requires forall k :: 0 <= k < |body| ==> !body[k].BeginSceneEdit? && !body[k].EndSceneEdit?
    ensures EditsBalanced([Pause, BeginSceneEdit] + body + [EndSceneEdit, Resume])
  {
    MutationsWhileOpen(body);
    EditStateAppend(false, [Pause, BeginSceneEdit], body);
    EditStateAppend(false, [Pause, BeginSceneEdit] + body, [EndSceneEdit, Resume]);
  }

  /** The renderer as the delegate drives it. */
  class Session {
    /** Every call made, in order. */
    var log: seq<Event>
    /** Names of the meshes defined in the scene. */
    var meshes: set<string>
    /** Names of the objects in the scene. */
    var objects: set<string>

    constructor ()
      ensures log == [] && meshes == {} && objects == {}
    {
      log := [];
      meshes := {};
      objects := {};
    }

    /** Scene::IsMeshDefined */
    function IsMeshDefined(name: string): bool
      reads this
    {
      name in meshes
    }

    method Pause()
      modifies this`log
      ensures log == old(log) + [Event.Pause]
    {
      log := log + [Event.Pause];
    }

    method Resume()
      modifies this`log
      ensures log == old(log) + [Event.Resume]
    {
      log := log + [Event.Resume];
    }

    method Stop()
      modifies this`log
      ensures log == old(log) + [Event.Stop]
    {
      log := log + [Event.Stop];
    }

    method Start()
      modifies this`log
      ensures log == old(log) + [Event.Start]
    {
      log := log + [Event.Start];
    }

    method BeginSceneEdit()
      modifies this`log
      ensures log == old(log) + [Event.BeginSceneEdit]
    {
      log := log + [Event.BeginSceneEdit];
    }

    method EndSceneEdit()
      modifies this`log
      ensures log == old(log) + [Event.EndSceneEdit]
    {
      log := log + [Event.EndSceneEdit];
    }

    method ParseFilm(width: nat, height: nat)
      modifies this`log
      ensures log == old(log) + [Event.ParseFilm(width, height)]
    {
      log := log + [Event.ParseFilm(width, height)];
    }

    method ParseCamera(inverseView: Matrix4, inverseProjection: Matrix4)
      modifies this`log
      ensures log == old(log) + [Event.ParseCamera(inverseView, inverseProjection)]
    {
      log := log + [Event.ParseCamera(inverseView, inverseProjection)];
    }

    method DefineMesh(name: string, pointCount: nat, triangleCount: nat,
                      vertices: seq<real>, triangles: seq<Vec3i>)
      modifies this`log, this`meshes
      ensures log == old(log) + [Event.DefineMesh(name, pointCount, triangleCount, vertices, triangles)]
      ensures meshes == old(meshes) + {name}
    {
      log := log + [Event.DefineMesh(name, pointCount, triangleCount, vertices, triangles)];
      meshes := meshes + {name};
    }

    method DeleteObject(name: string)
      modifies this`log, this`objects
      ensures log == old(log) + [Event.DeleteObject(name)]
      ensures objects == old(objects) - {name}
    {
      log := log + [Event.DeleteObject(name)];
      objects := objects - {name};
    }

    method ParseObject(name: string, shape: string, material: string)
      modifies this`log, this`objects
      ensures log == old(log) + [Event.ParseObject(name, shape, material)]
      ensures objects == old(objects) + {name}
    {
      log := log + [Event.ParseObject(name, shape, material)];
      objects := objects + {name};
    }

    method SetMeshAppliedTransformation(name: string, m: Matrix4)
      modifies this`log
      ensures log == old(log) + [Event.SetMeshAppliedTransformation(name, m)]
    {
      log := log + [Event.SetMeshAppliedTransformation(name, m)];
    }

    method UpdateObjectTransformation(name: string, m: Matrix4)
      modifies this`log
      ensures log == old(log) + [Event.UpdateObjectTransformation(name, m)]
    {
      log := log + [Event.UpdateObjectTransformation(name, m)];
    }
  }
}
