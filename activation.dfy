/**
 * `load_collider`: the system that waits for the terrain scene, attaches
 * static walkable colliders to its meshes, then gives the players their
 * dynamic bodies, once, latched by a system-local `done` flag.
 */
module TerrainActivation {
  import opened Wrappers
  import opened Maths
  import opened Interaction
  import opened ColliderBuilder
  import opened Physics

  /** An entity, as its `to_bits` value. */
  type Entity = nat
  type InstanceId = nat
  type MeshHandle = nat

  /** What `load_collider` reads of the world on one tick. */
  datatype World = World(
    sceneInstance: Option<InstanceId>,               // the `SceneInstance` resource
    instanceEntities: map<InstanceId, seq<Entity>>,  // instances the scene spawner has spawned
    meshHandles: map<Entity, MeshHandle>,            // entities with a `Handle<Mesh>`
    meshes: map<MeshHandle, Mesh>,                   // meshes whose asset has loaded
    unbodiedPlayers: seq<Entity>)                    // players without a rigid-body handle

  datatype ColliderShape = TriMeshShape(mesh: TriMesh) | CapsuleY(halfHeight: real, radius: real)

  /** A collider builder with its collision groups. */
  datatype ColliderDesc = ColliderDesc(shape: ColliderShape, groups: InteractionGroups)

  /** A deferred `commands.insert(entity, (collider, body))`. */
  datatype Insert = Insert(entity: Entity, collider: ColliderDesc, body: RigidBodyDesc)

  /** What one run of the system does: the inserts it queues, or the panic that ends it. */
  datatype TickOutcome = Completed(inserts: seq<Insert>) | Panicked(error: MeshError)

  /** The entities of the scene instance, once the instance has been spawned. */
  function SceneEntities(w: World): Option<seq<Entity>>
  {
    match w.sceneInstance
    case None => None
    case Some(id) => if id in w.instanceEntities then Some(w.instanceEntities[id]) else None
  }

  /** The loaded mesh behind an entity's mesh handle, if any. */
  function LoadedMesh(w: World, e: Entity): Option<Mesh>
  {
    if e in w.meshHandles && w.meshHandles[e] in w.meshes then Some(w.meshes[w.meshHandles[e]]) else None
  }

  /** The static, walkable terrain collider attached to a scene entity. */
  function TerrainInsert(e: Entity, geometry: TriMesh): Insert
  {
    Insert(e, ColliderDesc(TriMeshShape(geometry), TERRAIN_GROUPS), StaticBody)
  }

  /** The dynamic, rotation-locked, mass-1 body and player capsule given to a player. */
  function PlayerInsert(e: Entity): Insert
  {
    Insert(e, ColliderDesc(CapsuleY(0.25, 0.25), PLAYER_GROUPS),
           DynamicBody(true, Vec3(10.0, 10.0, 0.0), 1.0, e))
  }

  function PlayerInserts(players: seq<Entity>): (r: seq<Insert>)
    ensures |r| == |players|
    ensures forall k :: 0 <= k < |players| ==> r[k] == PlayerInsert(players[k])
  {
    seq(|players|, k requires 0 <= k < |players| => PlayerInsert(players[k]))
  }

  /** Progress of the walk over the scene's entities. */
  datatype Scan = Scanned(inserts: seq<Insert>) | ScanPanicked(finished: nat, error: MeshError)

  /** The walk over the scene's entities, defined on prefixes of the walk. */
  function ScanEntities(w: World, es: seq<Entity>): Scan
  {
    if es == [] then Scanned([])
    else
      var last := es[|es| - 1];
      match ScanEntities(w, es[..|es| - 1])
      case ScanPanicked(k, err) => ScanPanicked(k, err)
      case Scanned(ins) =>
        match LoadedMesh(w, last)
        case None => Scanned(ins)
        case Some(mesh) =>
          match CreateColliderForMesh(mesh)
          case Err(err) => ScanPanicked(|es| - 1, err)
          case Ok(geometry) => Scanned(ins + [TerrainInsert(last, geometry)])
  }

  /** One run of `load_collider`: the new `done` and what the run does. */
  function LoadCollider(done: bool, w: World): (bool, TickOutcome)
  {
    if done then (true, Completed([]))
    else
      match SceneEntities(w)
      case None => (false, Completed([]))
      case Some(es) =>
        match ScanEntities(w, es)
        case ScanPanicked(k, err) => (k > 0, Panicked(err))
        case Scanned(terrain) =>
          if |es| > 0 then (true, Completed(terrain + PlayerInserts(w.unbodiedPlayers)))
          else (false, Completed(terrain))
  }

  /** Once the walk has panicked on a prefix, the whole walk has panicked there. */
  lemma {:induction false} ScanPanicSticks(w: World, es: seq<Entity>, n: nat)
    requires n <= |es| && ScanEntities(w, es[..n]).ScanPanicked?
    ensures ScanEntities(w, es) == ScanEntities(w, es[..n])
    decreases |es| - n
  {
    if n < |es| {
      assert es[..n + 1][..n] == es[..n];
      ScanPanicSticks(w, es, n + 1);
    } else {
      assert es[..n] == es;
    }
  }

  /** The scene entities whose mesh handle resolves to a loaded mesh, in order. */
  function Meshed(w: World, es: seq<Entity>): (r: seq<Entity>)
    ensures forall e :: e in r <==> e in es && LoadedMesh(w, e).Some?
  {
    if es == [] then []
    else
      var last := es[|es| - 1];
      assert es == es[..|es| - 1] + [last];
      Meshed(w, es[..|es| - 1]) + (if LoadedMesh(w, last).Some? then [last] else [])
  }

  /**
   * The walk over the scene panics exactly when some entity's loaded mesh is
   * malformed; otherwise it attaches one static walkable trimesh collider to
   * each entity with a loaded mesh, in scene order, and to no other entity.
   */
  lemma {:induction false} ScanInserts(w: World, es: seq<Entity>)
    ensures ScanEntities(w, es).Scanned? <==>
      forall k :: 0 <= k < |es| && LoadedMesh(w, es[k]).Some? ==> WellFormed(LoadedMesh(w, es[k]).value)
    ensures ScanEntities(w, es).Scanned? ==>
      var ins := ScanEntities(w, es).inserts;
      var meshed := Meshed(w, es);
      && |ins| == |meshed|
      && forall k :: 0 <= k < |ins| ==>
           && CreateColliderForMesh(LoadedMesh(w, meshed[k]).value).Ok?
           && ins[k] == TerrainInsert(meshed[k], CreateColliderForMesh(LoadedMesh(w, meshed[k]).value).value)
  {
    if es != [] {
      var init := es[..|es| - 1];
      var last := es[|es| - 1];
      ScanInserts(w, init);
      if LoadedMesh(w, last).Some? {
        CreateColliderSucceedsIff(LoadedMesh(w, last).value);
      }
      assert forall k :: 0 <= k < |init| ==> init[k] == es[k];
    }
  }

  /**
   * One run of the system. Once `done` is set it does nothing. Otherwise
   * `done` is set exactly when the scene instance has been spawned and has an
   * entity (whether or not any mesh has loaded); players are given bodies
   * only on that run, after the terrain colliders, and every player still
   * without a body gets one.
   */
  lemma LoadColliderLatch(done: bool, w: World)
    ensures done ==> LoadCollider(done, w) == (true, Completed([]))
    ensures !done && LoadCollider(done, w).1.Completed? ==>
      var (newDone, outcome) := LoadCollider(done, w);
      && (newDone <==> SceneEntities(w).Some? && |SceneEntities(w).value| > 0)
      && outcome.inserts == (if SceneEntities(w).Some? then ScanEntities(w, SceneEntities(w).value).inserts else [])
                            + (if newDone then PlayerInserts(w.unbodiedPlayers) else [])
    ensures !done && LoadCollider(done, w).1.Panicked? ==>
      SceneEntities(w).Some? && ScanEntities(w, SceneEntities(w).value).ScanPanicked?
  {
  }

  /** A run that queues any insert sets `done`. */
  lemma ActiveRunLatches(done: bool, w: World)
    requires LoadCollider(done, w).1.Completed? && LoadCollider(done, w).1.inserts != []
    ensures LoadCollider(done, w).0
  {
  }

  /** Runs of the system on successive ticks; a panic ends the program. */
  function RunTicks(done: bool, worlds: seq<World>): (outs: seq<TickOutcome>)
    ensures |outs| <= |worlds|
    ensures forall k :: 0 <= k < |outs| - 1 ==> outs[k].Completed?
    ensures |outs| < |worlds| ==> outs != [] && outs[|outs| - 1].Panicked?
    decreases |worlds|
  {
    if worlds == [] then []
    else
      var (d, o) := LoadCollider(done, worlds[0]);
      if o.Panicked? then [o] else [o] + RunTicks(d, worlds[1..])
  }

  /** After `done` is set every later run is a no-op. */
  lemma {:induction false} RunsAfterDoneAreNoOps(worlds: seq<World>)
    ensures |RunTicks(true, worlds)| == |worlds|
    ensures forall k :: 0 <= k < |worlds| ==> RunTicks(true, worlds)[k] == Completed([])
  {
    if worlds != [] {
      RunsAfterDoneAreNoOps(worlds[1..]);
    }
  }

  /** No outcome that queued inserts is followed by another that does. */
  predicate AtMostOneActive(outs: seq<TickOutcome>)
  {
    forall i, j :: 0 <= i < j < |outs| && outs[i] != Completed([]) ==> outs[j] == Completed([])
  }

  /**
   * However many ticks the system runs for, at most one run queues inserts:
   * the terrain colliders are attached, and the players activated, once.
   */
  lemma {:induction false} AtMostOneActiveRun(done: bool, worlds: seq<World>)
    ensures AtMostOneActive(RunTicks(done, worlds))
    decreases |worlds|
  {
    if worlds != [] {
      var (d, o) := LoadCollider(done, worlds[0]);
      if o.Completed? {
        var rest := RunTicks(d, worlds[1..]);
        var outs := RunTicks(done, worlds);
        assert outs == [o] + rest;
        AtMostOneActiveRun(d, worlds[1..]);
        if o != Completed([]) {
          ActiveRunLatches(done, worlds[0]);
          RunsAfterDoneAreNoOps(worlds[1..]);
        }
        forall i, j | 0 <= i < j < |outs| && outs[i] != Completed([])
          ensures outs[j] == Completed([])
        {
          assert outs[j] == rest[j - 1];
          if i > 0 {
            assert outs[i] == rest[i - 1];
          }
        }
      }
    }
  }

  /**
   * The latch does not wait for the terrain mesh: a spawned scene whose mesh
   * has not loaded yet sets `done`, attaches no collider, and activates the
   * players, after which the loaded mesh is never given a collider.
   */
  lemma LatchDoesNotWaitForMesh(player: Entity, terrain: Entity, handle: MeshHandle, mesh: Mesh)
    requires WellFormed(mesh)
    ensures var before := World(Some(0), map[0 := [terrain]], map[terrain := handle], map[], [player]);
      var after := before.(meshes := map[handle := mesh]);
      RunTicks(false, [before, after]) == [Completed([PlayerInsert(player)]), Completed([])]
  {
    var before := World(Some(0), map[0 := [terrain]], map[terrain := handle], map[], [player]);
    assert SceneEntities(before) == Some([terrain]);
    assert [terrain][..0] == [];
    assert ScanEntities(before, [terrain]) == Scanned([]);
    assert PlayerInserts([player]) == [PlayerInsert(player)];
    assert [] + [PlayerInsert(player)] == [PlayerInsert(player)];
    assert LoadCollider(false, before) == (true, Completed([PlayerInsert(player)]));
  }

  /** The system-local state of `load_collider`. */
  class ColliderLoader {
    var done: bool

    /** `Local<bool>` starts out false. */
    constructor ()
      ensures !done
    {
      done := false;
    }

    /** One run of the system. */
    method Run(w: World) returns (outcome: TickOutcome)
      modifies this
      ensures (done, outcome) == LoadCollider(old(done), w)
    {
      if done {
        return Completed([]);
      }
      var inserts: seq<Insert> := [];
      if w.sceneInstance.Some? {
        var id := w.sceneInstance.value;
        if id in w.instanceEntities {
          var es := w.instanceEntities[id];
          var i := 0;
          while i < |es|
            invariant 0 <= i <= |es|
            invariant ScanEntities(w, es[..i]) == Scanned(inserts)
            invariant done == (i > 0)
          {
            var e := es[i];
            assert es[..i + 1][..i] == es[..i];
            if e in w.meshHandles {
              var handle := w.meshHandles[e];
              if handle in w.meshes {
                var collider := CreateColliderForMesh(w.meshes[handle]);
                if collider.Err? {
                  ScanPanicSticks(w, es, i + 1);
                  return Panicked(collider.error);
                }
                inserts := inserts + [TerrainInsert(e, collider.value)];
              }
            }
            done := true;
            i := i + 1;
          }
          assert es[..i] == es;
        }
      }
      if done {
        var players := w.unbodiedPlayers;
        ghost var terrain := inserts;
        var j := 0;
        while j < |players|
          invariant 0 <= j <= |players|
          invariant inserts == terrain + PlayerInserts(players[..j])
        {
          inserts := inserts + [PlayerInsert(players[j])];
          j := j + 1;
        }
        assert players[..j] == players;
      }
      outcome := Completed(inserts);
    }
  }
}
