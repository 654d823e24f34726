# Bevy-WoW character controller, modelled in Dafny

Bevy-WoW is a small Bevy/Rapier game prototype. This project models the core
logic beneath its ECS plumbing and proves properties about it:

- **the triangle-mesh collider builder** (`create_collider_for_mesh`): a vertex
  buffer and a `u32` index buffer become a list of points and a list of
  triangles, or one of the panics of its `unwrap`s;
- **the terrain/player activation latch** (`load_collider`): a system with a
  system-local `done` flag that attaches static walkable trimesh colliders to the
  loaded meshes of the terrain scene, then gives every player still without a
  body a dynamic body and a capsule collider, and from then on does nothing;
- **the per-tick character controller** in both of its versions: the
  `player.rs` one, fed by the `InputBindings` resource, and the older `main.rs`
  one, split into `process_mouse_events` and its own `update_player`. Each tick
  wraps the yaw, clamps the camera pitch and distance, classifies `grounded`
  from a downward ray and steers the player's rigid body;
- **input aggregation** (`update_input` and the `InputBindings` accessors);
- **the collision-group flags** (`InteractionFlags`) and the 16-bit
  membership/filter pairs they are put into.

Numbers are Dafny `real`s. Rust's `f32` operators are written out where their
meaning differs from the real one: `%` is a truncating remainder, and
`max`/`min` never see NaN. The physics engine is represented by what the
controllers can observe of it:

- a rigid body is a class whose state is its linear velocity, its position
  (translation and scaled-axis rotation) and its inverse mass, which scales
  the velocity change of an impulse;
- a ray cast is given as the nearest admitted hit along the unbounded ray
  (time of impact and slope angle in degrees), and the model applies the
  `max_toi` test itself.

State that the source updates in place is modelled as classes:

- `ColliderLoader` holds the `done` flag;
- `CharacterController` holds the controller fields;
- `RigidBody` is the body;
- `InputBindings` is the input resource.

Each method is proved against a pure step function, and the multi-tick
properties are lemmas about those functions.

Modules, one per file:

| file | module | models |
|---|---|---|
| wrappers.dfy | Wrappers | `Option`, `Result` |
| maths.dfy | Maths | vectors, `to_radians`, `max`/`min` clamps, `f32` `%` |
| interaction.dfy | Interaction | `InteractionFlags`, `InteractionGroups` |
| collider.dfy | ColliderBuilder | `create_collider_for_mesh` |
| activation.dfy | TerrainActivation | `load_collider` |
| physics.dfy | Physics | the rigid body, the ray and `cast_ray`'s range test |
| input.dfy | Input | `InputBindings`, `update_input` |
| player.dfy | PlayerController | `CharacterController`, `update_player` of `player.rs` |
| prototype.dfy | PrototypeController | `process_mouse_events`, `update_player` of `main.rs` |

Behaviour worth noting, modelled as the code has it:

- `done` latches on the first run that finds the scene instance with at least
  one entity, even when no mesh has loaded yet. A mesh that loads later never
  gets a collider (`TerrainActivation.LatchDoesNotWaitForMesh`).
- A loaded mesh the builder cannot handle panics the whole system rather than
  being skipped (`TickOutcome.Panicked`).
- `update_input` normalises every nonzero movement vector. It does not merely
  cap its length.
- The two controllers differ:

| | `main.rs` | `player.rs` |
|---|---|---|
| pitch upper bound | 179° | 90° |
| ray range | 0.7 | 0.5 |
| ray origin | the translation | 0.3 above it |
| slope test | none | < 44° |
| mouse input | last event of the tick | sum of the tick's events |
| movement | not normalised | normalised |

The `main.rs` version runs on `MMOPlayer` (src/component.rs:3-25), whose fields
and default are those of `CharacterController`. The model uses the one class for
both.

## Model

| member | source | states |
|---|---|---|
| ColliderBuilder.ToPoints | src/main.rs:153-155 | one point per vertex, point k built from vertex k |
| ColliderBuilder.PointsRoundTrip | src/main.rs:153-155 | the vertex coordinates can be read back unchanged and in order from the points |
| ColliderBuilder.Triangulate | src/main.rs:157-162 | cutting the index buffer succeeds iff its length is a multiple of 3; it then yields len/3 triangles, triangle k being (i[3k], i[3k+1], i[3k+2]) |
| ColliderBuilder.TriangulateFlatten | src/main.rs:157-162 | cutting a laid-out triangle list into triples gives the list back |
| ColliderBuilder.FlattenTriangulate | src/main.rs:157-162 | laying out the triangles cut from an index buffer gives the buffer back |
| ColliderBuilder.CreateColliderForMesh | src/main.rs:146-165 | the builder itself: positions, then indices, each unwrapped in source order, then the points and the triangles; its properties are the next three rows |
| ColliderBuilder.CreateColliderSucceedsIff | src/main.rs:146-165 | the builder succeeds exactly on meshes with `Float3` positions and `U32` indices of a length divisible by 3 |
| ColliderBuilder.CreateColliderErrors | src/main.rs:147-162 | the builder fails with missing positions, non-`Float3` positions, missing indices, non-`U32` indices, or a short last triangle, checked in that order |
| ColliderBuilder.CreateColliderRoundTrip | src/main.rs:146-165 | on success there is one point per vertex and one triangle per index triple, and both buffers can be recovered unchanged from the geometry |
| Interaction.FlagsAreDistinctBits | src/main.rs:27-31 | PLAYER and WALKABLE are distinct single bits |
| Interaction.GroundRaySkipsPlayers | src/main.rs:246 | the grounding ray's groups never admit a collider that belongs only to PLAYER; they admit the terrain's groups and not a player capsule's |
| TerrainActivation.PlayerInserts | src/main.rs:130-142 | one insert per player without a body, in query order, each a rotation-locked mass-1 dynamic body with linvel (10, 10, 0), the entity as user data, and a PLAYER-group capsule (0.25, 0.25) |
| TerrainActivation.SceneEntities | src/main.rs:110-111 | the scene instance's entities, present only when the instance id is set and the spawner has spawned that instance; used by `LoadColliderLatch` |
| TerrainActivation.LoadedMesh | src/main.rs:113-114 | the mesh of an entity, present only when the entity has a mesh handle and that handle's asset has loaded; used by `Meshed` and `ScanInserts` |
| TerrainActivation.TerrainInsert | src/main.rs:115-121 | the insert for one terrain entity: the trimesh collider in the WALKABLE groups with a static body; used by `ScanInserts` |
| TerrainActivation.PlayerInsert | src/main.rs:132-141 | the insert for one player: a rotation-locked mass-1 dynamic body with linvel (10, 10, 0) and the entity as user data, and a PLAYER-group capsule (0.25, 0.25); used by `PlayerInserts` |
| TerrainActivation.ScanEntities | src/main.rs:110-127 | the walk over the scene's entities, one entity at a time, stopping at the first panic; what it computes is stated by `ScanInserts` |
| TerrainActivation.LoadCollider | src/main.rs:95-144 | one run of the system as the new `done` and the run's outcome; what it computes is stated by `LoadColliderLatch` and `ActiveRunLatches` |
| TerrainActivation.ScanPanicSticks | src/main.rs:112-126 | a panic on an entity ends the walk: the outcome of the whole walk is that panic |
| TerrainActivation.Meshed | src/main.rs:113-114 | the entities kept are exactly the scene entities whose mesh handle resolves to a loaded mesh |
| TerrainActivation.ScanInserts | src/main.rs:110-127 | the walk panics iff some loaded mesh is malformed; otherwise it inserts one static WALKABLE trimesh collider per entity with a loaded mesh, in scene order, built from that mesh |
| TerrainActivation.LoadColliderLatch | src/main.rs:95-144 | once done, a run does nothing; otherwise done is set iff the scene instance exists with at least one entity, and players get bodies only on that run, after the terrain colliders |
| TerrainActivation.ActiveRunLatches | src/main.rs:125-130 | a run that queues any insert has set done |
| TerrainActivation.RunTicks | src/main.rs:104-108 | the runs of successive ticks with `done` carried between them; the sequence stops early only at a panic, and only its last run can have panicked |
| TerrainActivation.RunsAfterDoneAreNoOps | src/main.rs:106-108 | after done is set, every later run queues nothing |
| TerrainActivation.AtMostOneActiveRun | src/main.rs:104-143 | over any sequence of ticks, at most one run queues inserts |
| TerrainActivation.LatchDoesNotWaitForMesh | src/main.rs:112-126 | a scene entity whose mesh has not loaded still sets done, so the mesh that loads on the next tick never gets a collider |
| TerrainActivation.ColliderLoader.constructor | src/main.rs:104 | the system-local flag starts false |
| TerrainActivation.ColliderLoader.Run | src/main.rs:95-144 | the imperative walk over the scene and the players computes exactly the new flag and outcome of `LoadCollider` |
| Maths.Radians | src/player.rs:94-95 | `to_radians`: degrees times 2π over 360, with the `f32` value of 2π; used by the pitch bounds and `PitchRangeIsWider` |
| Maths.Clamp | src/player.rs:92-98 | `x.max(lo).min(hi)` lies in [lo, hi], is x inside the range and the nearer bound outside it |
| Maths.ClampIdempotent | src/main.rs:224-228 | re-applying a clamp changes nothing |
| Maths.FloorRem | src/player.rs:89 | the floored remainder of a non-negative dividend differs from it by a whole number of b's and lies in [0, b); it is the dividend when that is below b |
| Maths.TruncRem | src/player.rs:89 | Rust's `%` differs from the dividend by a whole number of b's and takes its sign: in [0, b) for a non-negative dividend, in (-b, 0] for a negative one, unchanged strictly inside (-b, b) |
| Maths.RemainderUnique | src/player.rs:89 | a remainder in [0, b) that differs from the dividend by a whole number of b's is unique, so the two clauses above fix the value of `%` |
| Physics.InverseMass | src/main.rs:132-136 | a dynamic body of positive mass m responds to impulses with 1/m; a static body, or one of zero mass, not at all |
| Physics.RigidBody.constructor | src/main.rs:132-136 | the body a builder creates has the builder's velocity (zero for a static one), the given position and the builder's inverse mass |
| Physics.RigidBody.SetLinvel | src/player.rs:137 | `set_linvel` replaces the velocity and nothing else |
| Physics.RigidBody.ApplyImpulse | src/player.rs:140 | `apply_impulse` adds the impulse times the inverse mass to the velocity at once and changes nothing else |
| Physics.RigidBody.SetPosition | src/player.rs:146 | `set_position` replaces the position and nothing else |
| Physics.CastRay | src/player.rs:117-122 | a hit is reported iff there is one with time of impact within `max_toi`, and it is that hit |
| Input.Axis | src/resource.rs:49-60 | an axis is +1 iff only its plus key is held, -1 iff only its minus key is, 0 iff both or neither |
| Input.ReadMovementKeys | src/resource.rs:47-60 | the four key tests starting from zero compute the key vector (D-A, W-S) |
| Input.KeyVector | src/resource.rs:47-60 | the movement keys as (D-A, W-S); stated componentwise by `Axis` |
| Input.KeyVectorLength | src/resource.rs:62 | the key vector has zero squared length iff it is zero |
| Input.Movement | src/resource.rs:62-64 | a zero key vector stays zero and is not normalised; any other is normalised |
| Input.SumDeltas | src/resource.rs:68-71 | the motion deltas of a tick added in arrival order; `SumDeltasAppend` and `UpdateInput` state it |
| Input.SumReals | src/resource.rs:74-77 | the wheel deltas of a tick added in arrival order; `SumRealsAppend` and `UpdateInput` state it |
| Input.SumDeltasAppend | src/resource.rs:68-71 | the look sum is additive over batches of motion events |
| Input.SumRealsAppend | src/resource.rs:74-77 | the scroll sum is additive over batches of wheel events |
| Input.InputBindings.constructor | src/resource.rs:24-30 | the default bindings are all zero and no jump |
| Input.InputBindings.Movement | src/resource.rs:33 | returns the stored movement, changing nothing |
| Input.InputBindings.Look | src/resource.rs:34 | returns the stored look, changing nothing |
| Input.InputBindings.DoJump | src/resource.rs:35 | returns the stored jump flag, changing nothing |
| Input.InputBindings.Scroll | src/resource.rs:36 | returns the stored scroll, changing nothing |
| Input.UpdateInput | src/resource.rs:40-78 | every field is rebuilt from this tick alone: movement from the keys, jump from Space's edge, look the sum of motion deltas with y negated, scroll the negated sum of wheel deltas |
| Input.CancelledKeysGiveNoMovement | src/resource.rs:49-64 | with no movement key held, or only opposing pairs, movement is exactly zero |
| PlayerController.CharacterController.Default | src/player.rs:21-31 | the default controller: yaw 0, distance 20, pitch 30°, no camera, grounded |
| PlayerController.WrapYaw | src/player.rs:88-89 | the new yaw differs from the old yaw plus the turn by a whole number of turns and is strictly within a turn either way; it is that sum when the sum is in [0, 2π), in [0, 2π) when the sum is at least -2π (in particular for an old yaw in [0, 2π) and a turn no further left than a full turn), and in (-2π, 0] when the sum is below -2π; with the whole-turns clause this fixes the value on every input |
| PlayerController.YawCanGoNegative | src/player.rs:89 | because `%` truncates, a turn of 1.5 turns to the left from 0 leaves the yaw at -π |
| PlayerController.ClampPitch | src/player.rs:91-95 | the pitch ends in [1°, 90°], unchanged if already there |
| PlayerController.ClampDistance | src/player.rs:97-98 | the distance ends in [5, 30], unchanged if already there |
| PlayerController.DefaultIsInRange | src/player.rs:21-31 | the default pitch and distance are fixed points of the clamps and the default yaw is in [0, 2π) |
| PlayerController.GroundRay | src/player.rs:110-115 | the downward ray from 0.3 above the translation; stated by `GroundContactIsNearFeet` |
| PlayerController.Grounded | src/player.rs:110-130 | the grounding test; stated by `GroundedIff` and `GroundedExamples` |
| PlayerController.GroundedIff | src/player.rs:110-130 | grounded iff a hit lies within 0.5 along the ray and its slope is under 44° |
| PlayerController.GroundedExamples | src/player.rs:117-130 | a flat surface within range grounds, a wall never does, nothing beyond range does |
| PlayerController.GroundContactIsNearFeet | src/player.rs:110-122 | when grounded, the contact lies between 0.2 below and 0.3 above the translation |
| PlayerController.ScaleInput | src/player.rs:81-83 | the tick's movement, look and zoom scaled by the frame time and by 500, 1 and 10; used by `UpdatePlayer` |
| PlayerController.Direction | src/player.rs:100-106 | the steering direction from the entity's axes; stated by `DirectionFollowsAxes` |
| PlayerController.StepController | src/player.rs:87-130 | the controller fields after a tick; stated by `ControllerInvariant` and, per field, by the contracts of `WrapYaw`, `ClampPitch`, `ClampDistance` and `GroundedIff` |
| PlayerController.StepBody | src/player.rs:132-146 | the body after a tick of either controller; stated by `StepBodyEffects` |
| PlayerController.YawRotation | src/player.rs:145 | the rotation about y by -yaw, as a scaled axis; used by `StepBodyEffects` and `ControllerInvariant` |
| PlayerController.StepBodyEffects | src/player.rs:132-146 | rotation replaced by the yaw-only one and translation kept every tick; `set_linvel` keeps linvel.y, which rises by exactly 10 over the mass on a grounded jump tick and is otherwise unchanged; linvel.x/z set only while grounded; velocity untouched in the air |
| PlayerController.UnitMassJumpIsTen | src/player.rs:46-48 | on the mass-1 bodies the system builds, a grounded jump tick sets the horizontal velocity and raises the vertical one by exactly 10 |
| PlayerController.LastTickJump | src/player.rs:132-142 | one more tick raises the vertical velocity by 10 over the mass when it is a grounded jump, and leaves it otherwise |
| PlayerController.VerticalVelocityIsJumpGain | src/player.rs:132-142 | over any run, the vertical velocity is the initial one plus the gain of its grounded jumps, and the mass is unchanged |
| PlayerController.JumpGainCounts | src/player.rs:139-141 | the gain of a run is 10 over the mass times the number of grounded jump ticks |
| PlayerController.JumpsRaiseVerticalVelocity | src/player.rs:132-142 | over any run, the controller changes the vertical velocity only by 10 over the mass per grounded jump tick: air jumps do nothing |
| PlayerController.TranslationKept | src/player.rs:144-146 | over any run, the controller never changes the body's translation |
| PlayerController.ControllerInvariant | src/player.rs:87-98 | over any run whose left turns are each at most a full turn, yaw stays in [0, 2π); after a tick pitch and distance are in range and the body's rotation is the yaw-only rotation of the yaw |
| PlayerController.DirectionFollowsAxes | src/player.rs:100-106 | the direction follows the entity's axes: reversing forward and right reverses it |
| PlayerController.CameraTargetOf | src/player.rs:148-153 | a controller's camera with its pitch and distance when it has a camera, nothing otherwise; used by `UpdateEntity` |
| PlayerController.CameraTargets | src/player.rs:148-153 | the camera targets of the controllers in query order; `UpdateEntities` is proved to collect them, and the `main.rs` loop (src/main.rs:269-274) collects the same |
| PlayerController.UpdateEntity | src/player.rs:87-153 | the loop body computes the controller's and body's new states as `StepController`/`StepBody` and the camera target |
| PlayerController.UpdatePlayer | src/player.rs:61-154 | reads the bindings once, scales them by the tick, and steps every player entity with them, returning the camera targets in query order |
| PlayerController.UpdateEntities | src/player.rs:85-154 | each controller and body is stepped once with the same input, no other is touched, and the camera targets are collected in query order |
| PrototypeController.LastOr | src/main.rs:174-182 | the last event of a tick, or the given default when there was none; stated by `LastOrAppend` and `ProcessMouseEvents` |
| PrototypeController.LastOrAppend | src/main.rs:174-182 | only the last events of a tick count; earlier ones are overwritten |
| PrototypeController.LastMotionIsNotTheSum | src/main.rs:174-177 | two motions in a tick: this controller keeps the second, where `update_input` adds them |
| PrototypeController.StepMouse | src/main.rs:190-195 | one controller turned by the tick's mouse input; stated field by field by `TurnPlayer` and `MouseLeavesRangesOpen` |
| PrototypeController.MouseLeavesRangesOpen | src/main.rs:190-195 | `process_mouse_events` can leave pitch above 179° and distance below 5 |
| PrototypeController.ProcessMouseEvents | src/main.rs:167-196 | every controller is turned by the last motion delta and the last wheel delta of the tick (zero when none) |
| PrototypeController.TurnPlayer | src/main.rs:190-195 | yaw wrapped after adding the look, pitch lowered by look.y, distance lowered by ten times the zoom, all scaled by the tick |
| PrototypeController.ClampPitch | src/main.rs:224-227 | the pitch ends in [1°, 179°], unchanged if already there |
| PrototypeController.PitchRangeIsWider | src/main.rs:227 | every pitch the `player.rs` clamp keeps, this one keeps too, and 120° is kept here but cut to 90° there |
| PrototypeController.GroundRay | src/main.rs:243-244 | the downward ray from the translation itself; stated by `GroundContactIsBelowFeet` |
| PrototypeController.Grounded | src/main.rs:243-250 | this controller's grounding test; stated by `GroundedIff` |
| PrototypeController.GroundedIff | src/main.rs:243-250 | grounded iff a hit lies within 0.7 of the translation, whatever its slope |
| PrototypeController.GroundedDiffersFromLaterController | src/main.rs:246 | a wall within range grounds this controller but not the `player.rs` one; a floor at 0.6 grounds only this one |
| PrototypeController.GroundContactIsBelowFeet | src/main.rs:243-246 | when grounded, the contact lies within 0.7 below the translation |
| PrototypeController.KeyMovement | src/main.rs:209-219 | the key vector scaled by the frame time and 500, not normalised; stated by `DiagonalMovesFaster` |
| PrototypeController.DiagonalMovesFaster | src/main.rs:209-219 | without normalisation a diagonal moves at full speed on both axes, and opposing keys cancel |
| PrototypeController.StepController | src/main.rs:223-250 | the controller fields after this version's update: both clamps and the grounding test; stated by `TickEndsInRange` |
| PrototypeController.TickEndsInRange | src/main.rs:190-228 | after the mouse step and the update, pitch and distance are in range, yaw is strictly within a turn, and in [0, 2π) when it was before and the turn left was at most a full turn |
| PrototypeController.DefaultIsInRange | src/component.rs:14-25 | the default controller passes this controller's clamps unchanged |
| PrototypeController.UpdateEntity | src/main.rs:223-274 | the loop body clamps, grounds and steers as `StepController`/`StepBody`, and returns the camera target |
| PrototypeController.UpdatePlayer | src/main.rs:198-275 | the keyboard is read once, movement scaled without normalising, jump from Space's edge, and every player entity stepped with them |
| PrototypeController.UpdateEntities | src/main.rs:221-275 | each controller and body is stepped once with the same movement and jump, no other is touched, and the camera targets are collected in query order |

## Left out

- `setup` (src/main.rs:48-91), src/setup.rs and `create_instance` (src/player.rs:34-59): asset loading, scene spawning and entity wiring, with no logic to state.
- Camera transform writes (src/main.rs:277-288, src/player.rs:156-167): entity lookups and trigonometry. The model stops at the camera targets (camera, pitch, distance) that feed them.
- `normalize`, `acos`, `to_degrees`, `sin`/`cos`, `Mat4::face_toward` and `UnitQuaternion::new`. `normalize` is a function parameter; the forward and right axes and the slope angle are inputs; a rotation is kept as its scaled axis.
- Input.Movement: the unit length of a normalised vector is not stated, because `normalize` is a parameter.
- Floating-point rounding, NaN and infinities: the model computes on reals, with 2π as the `f32` constant 6.2831855.
- `QueryPipeline::cast_ray` itself: the nearest admitted hit along the unbounded ray is an input. The model applies only the range test and, through `Interaction`, which groups are admitted.
- The physics simulation: what the velocities and gravity do to the body between ticks. The wake-up and `sleeping` flags passed to the body calls are not modelled.
- Physics.RigidBody.ApplyImpulse: the inverse mass is the builder's; the backend's effective inverse mass with locked translation axes is not modelled, as neither system locks one.
- `ColliderBuilder::trimesh` (src/main.rs:164): the model stops at the (points, triangles) pair handed to it. What the backend checks or rejects when it builds the trimesh (indices out of range, an empty mesh, degenerate triangles) is not modelled, so `ScanInserts`' "panics iff malformed" covers only the `unwrap`s of `create_collider_for_mesh`.
- The entities found by Bevy queries are inputs (the players, their bodies, their translations and ray hits), and so are the mouse events and key states of a tick. System scheduling and `EventReader` cursors are left out.
- `rigidbody_set.get_mut(...).unwrap()` on a stale handle is not modelled: every player is given a body.
- The delayed effect of `commands.insert`: the inserts are the run's output, and the next run's world is an input.
