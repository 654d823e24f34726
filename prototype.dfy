/**
 * The first character controller, kept in `main.rs`: `process_mouse_events`
 * turns the camera from the mouse events of a tick, and the older
 * `update_player` reads the keyboard itself, clamps the camera, detects the
 * ground and steers the rigid body.
 */
module PrototypeController {
  import opened Wrappers
  import opened Maths
  import opened Physics
  import Input
  import PlayerController

  type ControllerState = PlayerController.ControllerState
  type CharacterController = PlayerController.CharacterController
  type EntityView = PlayerController.EntityView
  type CameraTarget = PlayerController.CameraTarget

  const ZOOM_SENSE: real := 10.0
  const LOOK_SENSE: real := 1.0
  const MOVE_SPEED: real := 500.0

  /** This controller lets the camera orbit almost all the way over the top. */
  const MIN_PITCH: real := Radians(1.0)
  const MAX_PITCH: real := Radians(179.0)
  /** The grounding ray starts at the translation itself and reaches this far down. */
  const RAY_RANGE: real := 0.7

  /** The last event of a tick, or `none` when there was none. */
  function LastOr<T>(events: seq<T>, none: T): T
  {
    if events == [] then none else events[|events| - 1]
  }

  /** Only the last events count: whatever came before them is overwritten. */
  lemma LastOrAppend<T>(earlier: seq<T>, later: seq<T>, none: T)
    ensures later != [] ==> LastOr(earlier + later, none) == LastOr(later, none)
    ensures later == [] ==> LastOr(earlier + later, none) == LastOr(earlier, none)
  {
    if later == [] {
      assert earlier + later == earlier;
    }
  }

  /**
   * Two motions in one tick: this controller keeps only the second, where
   * `update_input` adds them up.
   */
  lemma LastMotionIsNotTheSum()
    ensures LastOr([Vec2(1.0, 0.0), Vec2(2.0, 0.0)], ZERO2) == Vec2(2.0, 0.0)
    ensures Input.SumDeltas([Vec2(1.0, 0.0), Vec2(2.0, 0.0)]) == Vec2(3.0, 0.0)
  {
    assert [Vec2(1.0, 0.0), Vec2(2.0, 0.0)][..1] == [Vec2(1.0, 0.0)];
    assert [Vec2(1.0, 0.0)][..0] == [];
  }

  /** A mouse delta scaled by the tick's duration and a sensitivity. */
  function Scaled(delta: real, dt: real, sense: real): real { delta * dt * sense }

  /** The controller fields after `process_mouse_events`, given the tick's look and zoom. */
  function StepMouse(c: ControllerState, look: Vec2, zoom: real, dt: real): ControllerState
  {
    c.(yaw := PlayerController.WrapYaw(c.yaw, Scaled(look.x, dt, LOOK_SENSE)),
       cameraPitch := c.cameraPitch - Scaled(look.y, dt, LOOK_SENSE),
       cameraDistance := c.cameraDistance - Scaled(zoom, dt, ZOOM_SENSE))
  }

  /**
   * `process_mouse_events` neither clamps pitch nor distance: one fast
   * downward motion takes the default pitch past the upper bound, and one
   * wheel step takes the distance out of range.
   */
  lemma MouseLeavesRangesOpen()
    ensures StepMouse(PlayerController.DEFAULT, Vec2(0.0, -10.0), 0.0, 1.0).cameraPitch > MAX_PITCH
    ensures StepMouse(PlayerController.DEFAULT, ZERO2, 2.0, 1.0).cameraDistance < PlayerController.MIN_DISTANCE
  {
  }

  /**
   * `process_mouse_events`: the look of the tick is the delta of its last
   * motion event and the zoom the `y` of its last wheel event (zero when there
   * was none); every player controller is turned by them.
   */
  method ProcessMouseEvents(dt: real, motions: seq<Vec2>, wheels: seq<real>, players: seq<CharacterController>)
    requires forall i, j :: 0 <= i < j < |players| ==> players[i] != players[j]
    modifies players
    ensures forall k :: 0 <= k < |players| ==>
      players[k].State() == StepMouse(old(players[k].State()), LastOr(motions, ZERO2), LastOr(wheels, 0.0), dt)
  {
    var look := ZERO2;
    for i := 0 to |motions|
      invariant look == LastOr(motions[..i], ZERO2)
    {
      look := motions[i];
    }
    assert motions[..|motions|] == motions;

    var zoomDelta := 0.0;
    for i := 0 to |wheels|
      invariant zoomDelta == LastOr(wheels[..i], 0.0)
    {
      zoomDelta := wheels[i];
    }
    assert wheels[..|wheels|] == wheels;

    for i := 0 to |players|
      invariant forall k :: 0 <= k < i ==>
        players[k].State() == StepMouse(old(players[k].State()), look, zoomDelta, dt)
      invariant forall k :: i <= k < |players| ==> players[k].State() == old(players[k].State())
    {
      TurnPlayer(players[i], look, zoomDelta, dt);
    }
  }

  /** The body of the loop of `process_mouse_events`, for one player controller. */
  method TurnPlayer(player: CharacterController, look: Vec2, zoomDelta: real, dt: real)
    modifies player
    ensures player.State() == StepMouse(old(player.State()), look, zoomDelta, dt)
  {
    player.yaw := player.yaw + Scaled(look.x, dt, LOOK_SENSE);
    player.yaw := TruncRem(player.yaw + TAU, TAU);
    player.cameraPitch := player.cameraPitch - Scaled(look.y, dt, LOOK_SENSE);
    player.cameraDistance := player.cameraDistance - Scaled(zoomDelta, dt, ZOOM_SENSE);
  }

  /** `camera_pitch.max(1°).min(179°)`. */
  function ClampPitch(pitch: real): (r: real)
    ensures MIN_PITCH <= r <= MAX_PITCH
    ensures MIN_PITCH <= pitch <= MAX_PITCH ==> r == pitch
  {
    Clamp(pitch, MIN_PITCH, MAX_PITCH)
  }

  /** This controller allows every pitch the later one does, and more above it. */
  lemma PitchRangeIsWider(pitch: real)
    ensures PlayerController.ClampPitch(pitch) == pitch ==> ClampPitch(pitch) == pitch
    ensures ClampPitch(Radians(120.0)) == Radians(120.0)
    ensures PlayerController.ClampPitch(Radians(120.0)) == PlayerController.MAX_PITCH
  {
  }

  /** The downward grounding ray, cast from the entity's translation. */
  function GroundRay(translation: Vec3): Ray
  {
    Ray(translation, DOWN)
  }

  /** Grounded detection: any non-player hit within range, however steep. */
  function Grounded(nearest: Option<RayHit>): bool
  {
    CastRay(nearest, RAY_RANGE).Some?
  }

  lemma GroundedIff(nearest: Option<RayHit>)
    ensures Grounded(nearest) <==> nearest.Some? && nearest.value.toi <= RAY_RANGE
  {
  }

  /**
   * A wall within range grounds this controller but not the later one; a flat
   * floor 0.6 below grounds this one but lies beyond the later one's ray.
   */
  lemma GroundedDiffersFromLaterController()
    ensures Grounded(Some(RayHit(0.4, 90.0))) && !PlayerController.Grounded(Some(RayHit(0.4, 90.0)))
    ensures Grounded(Some(RayHit(0.6, 0.0))) && !PlayerController.Grounded(Some(RayHit(0.6, 0.0)))
  {
  }

  /** When grounded, the contact lies at most 0.7 below the entity's translation. */
  lemma GroundContactIsBelowFeet(translation: Vec3, nearest: Option<RayHit>)
    requires nearest.Some? ==> nearest.value.toi >= 0.0
    ensures Grounded(nearest) ==>
      var contact := GroundRay(translation).At(nearest.value.toi);
      translation.y - RAY_RANGE <= contact.y <= translation.y
  {
  }

  /** The movement of a tick: the key vector scaled, without normalisation. */
  function KeyMovement(keyboard: Input.Keyboard, dt: real): Vec2
  {
    Input.KeyVector(keyboard).Times(dt * MOVE_SPEED)
  }

  /**
   * Without normalisation a diagonal moves at full speed on both axes at once,
   * and opposing keys cancel.
   */
  lemma DiagonalMovesFaster(keyboard: Input.Keyboard, dt: real)
    ensures Input.W in keyboard.pressed && Input.S !in keyboard.pressed
         && Input.D in keyboard.pressed && Input.A !in keyboard.pressed
        ==> KeyMovement(keyboard, dt) == Vec2(dt * MOVE_SPEED, dt * MOVE_SPEED)
    ensures (Input.W in keyboard.pressed <==> Input.S in keyboard.pressed)
         && (Input.D in keyboard.pressed <==> Input.A in keyboard.pressed)
        ==> KeyMovement(keyboard, dt) == ZERO2
  {
  }

  /** The controller fields after this controller's `update_player`. */
  function StepController(c: ControllerState, view: EntityView): ControllerState
  {
    c.(cameraPitch := ClampPitch(c.cameraPitch),
       cameraDistance := PlayerController.ClampDistance(c.cameraDistance),
       grounded := Grounded(view.nearest))
  }

  /** The body after this controller's `update_player`, given the updated controller. */
  function BodyAfter(b: BodyState, c: ControllerState, movement: Vec2, jump: bool, view: EntityView): BodyState
  {
    PlayerController.StepBody(b, c.grounded, c.yaw, PlayerController.Direction(view, movement), jump)
  }

  /**
   * A full tick of this controller, mouse first: whatever the mouse did, the
   * camera ends the tick inside its ranges and the yaw strictly within a turn
   * either way; the yaw is in [0, tau) whenever it was before and the turn to
   * the left was at most a full turn.
   */
  lemma TickEndsInRange(c: ControllerState, look: Vec2, zoom: real, dt: real, view: EntityView)
    ensures var c' := StepController(StepMouse(c, look, zoom, dt), view);
      && MIN_PITCH <= c'.cameraPitch <= MAX_PITCH
      && PlayerController.MIN_DISTANCE <= c'.cameraDistance <= PlayerController.MAX_DISTANCE
      && -TAU < c'.yaw < TAU
      && (0.0 <= c.yaw < TAU && -TAU <= Scaled(look.x, dt, LOOK_SENSE) ==> 0.0 <= c'.yaw < TAU)
      && c'.cameraEntity == c.cameraEntity
  {
  }

  /** The default controller lies inside this controller's ranges. */
  lemma DefaultIsInRange()
    ensures StepController(PlayerController.DEFAULT, PlayerController.EntityView(ZERO3, ZERO3, ZERO3, None))
         == PlayerController.DEFAULT.(grounded := false)
  {
  }

  /** The body of the loop of this controller's `update_player`, for one player entity. */
  method UpdateEntity(player: CharacterController, body: RigidBody, movement: Vec2, jump: bool, view: EntityView)
    returns (target: seq<CameraTarget>)
    modifies player, body
    ensures player.State() == StepController(old(player.State()), view)
    ensures body.State() == BodyAfter(old(body.State()), player.State(), movement, jump, view)
    ensures target == PlayerController.CameraTargetOf(player.State())
  {
    player.cameraPitch := Min(Max(player.cameraPitch, MIN_PITCH), MAX_PITCH);
    player.cameraDistance := Min(Max(player.cameraDistance, PlayerController.MIN_DISTANCE),
                                 PlayerController.MAX_DISTANCE);

    var direction := view.forward.Times(movement.y).Plus(view.right.Times(movement.x));

    if CastRay(view.nearest, RAY_RANGE).Some? {
      player.grounded := true;
    } else {
      player.grounded := false;
    }

    if player.grounded {
      var linvel := body.linvel;
      linvel := linvel.(x := direction.x);
      linvel := linvel.(z := direction.z);
      body.SetLinvel(linvel);
      if jump {
        body.ApplyImpulse(PlayerController.JUMP_IMPULSE);
      }
    }

    var position := body.position;
    position := position.(rotation := PlayerController.YawRotation(player.yaw));
    body.SetPosition(position);

    target := [];
    if player.cameraEntity.Some? {
      target := [PlayerController.CameraTarget(player.cameraEntity.value, player.cameraPitch, player.cameraDistance)];
    }
  }

  /** A player entity's controller and body stepped once from the given states. */
  ghost predicate Updated(player: CharacterController, body: RigidBody, c0: ControllerState, b0: BodyState,
                          movement: Vec2, jump: bool, view: EntityView)
    reads player, body
  {
    && player.State() == StepController(c0, view)
    && body.State() == BodyAfter(b0, player.State(), movement, jump, view)
  }

  /**
   * This controller's `update_player`: the keyboard read once, then every
   * player entity stepped with it; returns the camera targets in query order.
   */
  method UpdatePlayer(dt: real, keyboard: Input.Keyboard, players: seq<CharacterController>,
                      bodies: seq<RigidBody>, views: seq<EntityView>)
    returns (camPositions: seq<CameraTarget>, ghost after: seq<ControllerState>)
    requires |players| == |bodies| == |views|
    requires forall i, j :: 0 <= i < j < |players| ==> players[i] != players[j] && bodies[i] != bodies[j]
    modifies players, bodies
    ensures |after| == |players|
    ensures forall k :: 0 <= k < |players| ==>
      && after[k] == players[k].State()
      && after[k] == StepController(old(players[k].State()), views[k])
      && bodies[k].State() == BodyAfter(old(bodies[k].State()), after[k], KeyMovement(keyboard, dt),
                                        Input.Space in keyboard.justPressed, views[k])
    ensures camPositions == PlayerController.CameraTargets(after)
  {
    var jump := Input.Space in keyboard.justPressed;
    var movement := Input.ReadMovementKeys(keyboard);
    movement := movement.Times(dt * MOVE_SPEED);
    camPositions, after := UpdateEntities(movement, jump, players, bodies, views);
  }

  /** The loop of this controller's `update_player` over the player entities. */
  method UpdateEntities(movement: Vec2, jump: bool, players: seq<CharacterController>,
                        bodies: seq<RigidBody>, views: seq<EntityView>)
    returns (camPositions: seq<CameraTarget>, ghost after: seq<ControllerState>)
    requires |players| == |bodies| == |views|
    requires forall i, j :: 0 <= i < j < |players| ==> players[i] != players[j] && bodies[i] != bodies[j]
    modifies players, bodies
    ensures |after| == |players|
    ensures forall k :: 0 <= k < |players| ==>
      && after[k] == players[k].State()
      && after[k] == StepController(old(players[k].State()), views[k])
      && bodies[k].State() == BodyAfter(old(bodies[k].State()), after[k], movement, jump, views[k])
    ensures camPositions == PlayerController.CameraTargets(after)
  {
    camPositions, after := [], [];
    for i := 0 to |players|
      invariant |after| == i
      invariant forall k {:trigger players[k]} :: 0 <= k < i ==> after[k] == players[k].State()
      invariant forall k {:trigger players[k]} :: 0 <= k < i ==>
        Updated(players[k], bodies[k], old(players[k].State()), old(bodies[k].State()), movement, jump, views[k])
      invariant forall k :: i <= k < |players| ==>
        players[k].State() == old(players[k].State()) && bodies[k].State() == old(bodies[k].State())
      invariant camPositions == PlayerController.CameraTargets(after)
    {
      var target := UpdateEntity(players[i], bodies[i], movement, jump, views[i]);
      PlayerController.CameraTargetsSnoc(after, players[i].State());
      after := after + [players[i].State()];
      camPositions := camPositions + target;
    }
  }
}
