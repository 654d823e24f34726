/**
 * The character controller of `player.rs`: the `CharacterController`
 * component and the per-tick `update_player` system that turns the tick's
 * input into camera state and commands on the player's rigid body.
 */
module PlayerController {
  import opened Wrappers
  import opened Maths
  import opened Physics
  import Input

  type Entity = nat

  const ZOOM_SENSE: real := 10.0
  const LOOK_SENSE: real := 1.0
  const MOVE_SPEED: real := 500.0

  const MIN_PITCH: real := Radians(1.0)
  const MAX_PITCH: real := Radians(90.0)
  const MIN_DISTANCE: real := 5.0
  const MAX_DISTANCE: real := 30.0

  /** The grounding ray starts this far above the entity's translation. */
  const RAY_OFFSET: real := 0.3
  const RAY_RANGE: real := 0.5
  const MAX_SLOPE_DEGREES: real := 44.0
  const JUMP_IMPULSE: Vec3 := Vec3(0.0, 10.0, 0.0)

  /** The fields of a `CharacterController`. */
  datatype ControllerState = ControllerState(
    yaw: real,
    cameraDistance: real,
    cameraPitch: real,
    cameraEntity: Option<Entity>,
    grounded: bool)

  /** `CharacterController::default()`. */
  const DEFAULT: ControllerState := ControllerState(0.0, 20.0, Radians(30.0), None, true)

  /** The controller component of a player entity, updated in place every tick. */
  class CharacterController {
    var yaw: real
    var cameraDistance: real
    var cameraPitch: real
    var cameraEntity: Option<Entity>
    var grounded: bool

    constructor Default()
      ensures State() == DEFAULT
    {
      yaw := 0.0;
      cameraDistance := 20.0;
      cameraPitch := Radians(30.0);
      cameraEntity := None;
      grounded := true;
    }

    function State(): ControllerState
      reads this
    {
      ControllerState(yaw, cameraDistance, cameraPitch, cameraEntity, grounded)
    }
  }

  /**
   * `(yaw + dx + tau) % tau`, with Rust's truncating `%`. The result differs
   * from the sum `yaw + dx` by a whole number of turns and is always strictly
   * between -tau and tau; it is the sum itself when that is in [0, tau), and
   * lies in [0, tau) whenever the sum is at least -tau, in particular for a
   * yaw already in [0, tau) and a turn no further than a full turn to the left;
   * a sum below -tau leaves it in (-tau, 0], as `%` keeps the dividend's sign.
   */
  function WrapYaw(yaw: real, dx: real): (r: real)
    ensures IsWhole((yaw + dx - r) / TAU)
    ensures -TAU < r < TAU
    ensures 0.0 <= yaw + dx < TAU ==> r == yaw + dx
    ensures -TAU <= yaw + dx ==> 0.0 <= r < TAU
    ensures yaw + dx < -TAU ==> -TAU < r <= 0.0
    ensures 0.0 <= yaw < TAU && -TAU <= dx ==> 0.0 <= r < TAU
    ensures -TAU <= yaw + dx < 0.0 ==> r == yaw + dx + TAU
  {
    var r := TruncRem(yaw + dx + TAU, TAU);
    ShiftedWhole(yaw + dx, r, TAU);
    if 0.0 <= yaw + dx < TAU then
      WholeMultiple(yaw + dx + TAU, yaw + dx, TAU, 1);
      RemainderUnique(yaw + dx + TAU, TAU, r, yaw + dx);
      r
    else r
  }

  /** Because `%` truncates, a sum below -2π leaves yaw negative. */
  lemma YawCanGoNegative()
    ensures WrapYaw(0.0, -1.5 * TAU) == -0.5 * TAU
  {
    assert 0.5 * TAU / TAU == 0.5;
  }

  /** `camera_pitch.max(1°).min(90°)`: the camera never goes below the character. */
  function ClampPitch(pitch: real): (r: real)
    ensures MIN_PITCH <= r <= MAX_PITCH
    ensures MIN_PITCH <= pitch <= MAX_PITCH ==> r == pitch
  {
    Clamp(pitch, MIN_PITCH, MAX_PITCH)
  }

  /** `camera_distance.max(5.).min(30.)`. */
  function ClampDistance(distance: real): (r: real)
    ensures MIN_DISTANCE <= r <= MAX_DISTANCE
    ensures MIN_DISTANCE <= distance <= MAX_DISTANCE ==> r == distance
  {
    Clamp(distance, MIN_DISTANCE, MAX_DISTANCE)
  }

  /** The default controller already lies inside the clamp ranges. */
  lemma DefaultIsInRange()
    ensures ClampPitch(DEFAULT.cameraPitch) == DEFAULT.cameraPitch
    ensures ClampDistance(DEFAULT.cameraDistance) == DEFAULT.cameraDistance
    ensures 0.0 <= DEFAULT.yaw < TAU
  {
  }

  /** The downward grounding ray, cast from just above the entity's translation. */
  function GroundRay(translation: Vec3): Ray
  {
    Ray(translation.Plus(Vec3(0.0, RAY_OFFSET, 0.0)), DOWN)
  }

  /**
   * Grounded detection: the first non-player hit along the downward ray is
   * reported only within range, and then counts as ground only when its
   * surface is less steep than the maximum walkable slope.
   */
  function Grounded(nearest: Option<RayHit>): bool
  {
    match CastRay(nearest, RAY_RANGE)
    case None => false
    case Some(hit) => hit.slopeDegrees < MAX_SLOPE_DEGREES
  }

  lemma GroundedIff(nearest: Option<RayHit>)
    ensures Grounded(nearest) <==>
      nearest.Some? && nearest.value.toi <= RAY_RANGE && nearest.value.slopeDegrees < MAX_SLOPE_DEGREES
  {
  }

  /**
   * A flat surface within range is ground; a wall (or anything at least 44
   * degrees steep) never is; nothing beyond range is.
   */
  lemma GroundedExamples(toi: real)
    ensures 0.0 <= toi <= RAY_RANGE ==> Grounded(Some(RayHit(toi, 0.0)))
    ensures !Grounded(Some(RayHit(toi, 90.0)))
    ensures Grounded(Some(RayHit(0.4, 0.0)))
    ensures !Grounded(Some(RayHit(0.6, 0.0)))
    ensures !Grounded(None)
  {
  }

  /**
   * When grounded, the contact lies between 0.2 below and 0.3 above the
   * entity's translation: the ray reaches only just below the feet.
   */
  lemma GroundContactIsNearFeet(translation: Vec3, nearest: Option<RayHit>)
    requires nearest.Some? ==> nearest.value.toi >= 0.0
    ensures Grounded(nearest) ==>
      var contact := GroundRay(translation).At(nearest.value.toi);
      translation.y - (RAY_RANGE - RAY_OFFSET) <= contact.y <= translation.y + RAY_OFFSET
  {
  }

  /** The tick's input as `update_player` scales it. */
  datatype Intent = Intent(movement: Vec2, look: Vec2, zoom: real, jump: bool)

  /** `input.movement() * delta_seconds * move_speed` and the like. */
  function ScaleInput(movement: Vec2, look: Vec2, scroll: real, jump: bool, dt: real): Intent
  {
    Intent(movement.Times(dt).Times(MOVE_SPEED), look.Times(dt).Times(LOOK_SENSE), scroll * dt * ZOOM_SENSE, jump)
  }

  /**
   * What the system reads of one player entity besides its controller: its
   * translation, its normalised forward axis and right axis
   * (`forward.cross(up).normalize()`), and the first non-player hit along its
   * grounding ray.
   */
  datatype EntityView = EntityView(translation: Vec3, forward: Vec3, right: Vec3, nearest: Option<RayHit>)

  /** `fwd * movement.y + right * movement.x`. */
  function Direction(view: EntityView, movement: Vec2): Vec3
  {
    view.forward.Times(movement.y).Plus(view.right.Times(movement.x))
  }

  /** The controller fields after one tick. */
  function StepController(c: ControllerState, intent: Intent, view: EntityView): ControllerState
  {
    c.(yaw := WrapYaw(c.yaw, intent.look.x),
       cameraPitch := ClampPitch(c.cameraPitch + intent.look.y),
       cameraDistance := ClampDistance(c.cameraDistance + intent.zoom),
       grounded := Grounded(view.nearest))
  }

  /** A rotation about the y axis by `-yaw`, as a scaled axis. */
  function YawRotation(yaw: real): Vec3 { Vec3(0.0, -yaw, 0.0) }

  /**
   * The body after one tick of either controller: only while grounded are the
   * horizontal velocity components overwritten with the direction and, when
   * asked for, the jump impulse applied; the rotation is replaced by the
   * yaw-only rotation every tick.
   */
  function StepBody(b: BodyState, grounded: bool, yaw: real, direction: Vec3, jump: bool): BodyState
  {
    var steered :=
      if grounded then
        var steer := Vec3(direction.x, b.linvel.y, direction.z);
        b.(linvel := if jump then steer.Plus(JUMP_IMPULSE.Times(b.invMass)) else steer)
      else b;
    steered.(position := steered.position.(rotation := YawRotation(yaw)))
  }

  /**
   * What one tick commands of the body: the rotation becomes the yaw-only
   * rotation and the translation is kept, whatever `grounded` is; `set_linvel`
   * keeps the vertical velocity, so it changes only by the jump impulse, by
   * 10 over the mass, on a grounded tick that asks for a jump; only while
   * grounded are the horizontal components set to the direction's; in the
   * air the velocity is left as it was, even when jump was asked for.
   */
  lemma StepBodyEffects(b: BodyState, grounded: bool, yaw: real, direction: Vec3, jump: bool)
    ensures var b' := StepBody(b, grounded, yaw, direction, jump);
      && b'.position == Isometry(b.position.translation, YawRotation(yaw))
      && b'.invMass == b.invMass
      && (grounded && jump ==> b'.linvel.y == b.linvel.y + 10.0 * b.invMass)
      && (!(grounded && jump) ==> b'.linvel.y == b.linvel.y)
      && (grounded ==> b'.linvel.x == direction.x && b'.linvel.z == direction.z)
      && (!grounded ==> b'.linvel == b.linvel)
  {
  }

  /**
   * On a body of mass 1, such as the ones `create_instance` and
   * `load_collider` build, a grounded jump raises the vertical velocity by
   * exactly 10.
   */
  lemma UnitMassJumpIsTen(desc: RigidBodyDesc, b: BodyState, yaw: real, direction: Vec3)
    requires desc.DynamicBody? && desc.mass == 1.0 && b.invMass == InverseMass(desc)
    ensures StepBody(b, true, yaw, direction, true).linvel == Vec3(direction.x, b.linvel.y + 10.0, direction.z)
  {
  }

  /** The body after one tick of `update_player`, given the updated controller. */
  function BodyAfter(b: BodyState, c: ControllerState, intent: Intent, view: EntityView): BodyState
  {
    StepBody(b, c.grounded, c.yaw, Direction(view, intent.movement), intent.jump)
  }

  /** Where the camera of a controller is sent: the camera and its orbit pitch and distance. */
  datatype CameraTarget = CameraTarget(camera: Entity, pitch: real, distance: real)

  function CameraTargetOf(c: ControllerState): seq<CameraTarget>
  {
    match c.cameraEntity
    case None => []
    case Some(e) => [CameraTarget(e, c.cameraPitch, c.cameraDistance)]
  }

  /** `cam_positions` after the loop over the given controllers. */
  function CameraTargets(cs: seq<ControllerState>): seq<CameraTarget>
  {
    if cs == [] then [] else CameraTargets(cs[..|cs| - 1]) + CameraTargetOf(cs[|cs| - 1])
  }

  /** Stepping one more controller appends its camera target, if any. */
  lemma CameraTargetsSnoc(cs: seq<ControllerState>, c: ControllerState)
    ensures CameraTargets(cs + [c]) == CameraTargets(cs) + CameraTargetOf(c)
  {
    assert (cs + [c])[..|cs|] == cs;
  }

  /** One tick as seen by one player: its scaled input and its view of the world. */
  datatype Tick = Tick(intent: Intent, view: EntityView)

  /** A controller and its body after a run of ticks. */
  function Simulate(c: ControllerState, b: BodyState, ticks: seq<Tick>): (ControllerState, BodyState)
  {
    if ticks == [] then (c, b)
    else
      var (c', b') := Simulate(c, b, ticks[..|ticks| - 1]);
      var t := ticks[|ticks| - 1];
      var c'' := StepController(c', t.intent, t.view);
      (c'', BodyAfter(b', c'', t.intent, t.view))
  }

  /** The ticks on which the player was grounded and asked to jump. */
  function GroundedJumps(ticks: seq<Tick>): nat
  {
    if ticks == [] then 0
    else
      var t := ticks[|ticks| - 1];
      GroundedJumps(ticks[..|ticks| - 1]) + if Grounded(t.view.nearest) && t.intent.jump then 1 else 0
  }

  /** What the jumps of a run add to the vertical velocity of a body with the given inverse mass. */
  function JumpGain(ticks: seq<Tick>, invMass: real): real
  {
    if ticks == [] then 0.0
    else
      var t := ticks[|ticks| - 1];
      JumpGain(ticks[..|ticks| - 1], invMass) + if Grounded(t.view.nearest) && t.intent.jump then 10.0 * invMass else 0.0
  }

  /** The jumps of a run add 10 over the mass for each grounded jump tick. */
  lemma {:induction false} JumpGainCounts(ticks: seq<Tick>, invMass: real)
    ensures JumpGain(ticks, invMass) == (GroundedJumps(ticks) as real) * (10.0 * invMass)
  {
    if ticks != [] {
      var init, t := ticks[..|ticks| - 1], ticks[|ticks| - 1];
      JumpGainCounts(init, invMass);
      CountOneMore(GroundedJumps(init), Grounded(t.view.nearest) && t.intent.jump, 10.0 * invMass);
    }
  }

  /** One more grounded jump adds one more jump's worth. */
  lemma CountOneMore(n: nat, jumped: bool, jump: real)
    ensures (n as real) * jump + (if jumped then jump else 0.0) == ((n + if jumped then 1 else 0) as real) * jump
  {
  }

  /**
   * Over any run of ticks the controller raises the vertical velocity by 10
   * over the mass once per tick on which it was grounded and jump was asked
   * for, and changes it in no other way: jumps in the air do nothing, and a
   * held jump key adds one impulse per grounded tick.
   */
  lemma {:induction false} JumpsRaiseVerticalVelocity(c: ControllerState, b: BodyState, ticks: seq<Tick>)
    ensures var b' := Simulate(c, b, ticks).1;
      && b'.invMass == b.invMass
      && b'.linvel.y == b.linvel.y + (GroundedJumps(ticks) as real) * (10.0 * b.invMass)
  {
    JumpGainCounts(ticks, b.invMass);
    VerticalVelocityIsJumpGain(c, b, ticks);
  }

  /** The vertical velocity after a run is the one before plus what its jumps add. */
  lemma {:induction false} VerticalVelocityIsJumpGain(c: ControllerState, b: BodyState, ticks: seq<Tick>)
    ensures var b' := Simulate(c, b, ticks).1;
      b'.invMass == b.invMass && b'.linvel.y == b.linvel.y + JumpGain(ticks, b.invMass)
  {
    if ticks != [] {
      VerticalVelocityIsJumpGain(c, b, ticks[..|ticks| - 1]);
      LastTickJump(c, b, ticks);
    }
  }

  /** The last tick of a run raises the vertical velocity only when it is a grounded jump. */
  lemma LastTickJump(c: ControllerState, b: BodyState, ticks: seq<Tick>)
    requires ticks != []
    ensures var b0, b1 := Simulate(c, b, ticks[..|ticks| - 1]).1, Simulate(c, b, ticks).1;
      var t := ticks[|ticks| - 1];
      && b1.invMass == b0.invMass
      && b1.linvel.y == b0.linvel.y + (if Grounded(t.view.nearest) && t.intent.jump then 10.0 * b0.invMass else 0.0)
  {
    var t := ticks[|ticks| - 1];
    var (c0, b0) := Simulate(c, b, ticks[..|ticks| - 1]);
    var c1 := StepController(c0, t.intent, t.view);
    StepBodyEffects(b0, c1.grounded, c1.yaw, Direction(t.view, t.intent.movement), t.intent.jump);
  }

  /** The controller leaves the body's translation to the physics: over any run it is as it started. */
  lemma {:induction false} TranslationKept(c: ControllerState, b: BodyState, ticks: seq<Tick>)
    ensures Simulate(c, b, ticks).1.position.translation == b.position.translation
  {
    if ticks != [] {
      TranslationKept(c, b, ticks[..|ticks| - 1]);
    }
  }

  /**
   * A yaw that starts in [0, tau) stays there over any run of ticks none of
   * which turns left by more than a full turn; after at least one tick the
   * camera pitch and distance are in range, and the body's rotation is the
   * yaw-only rotation of the final yaw.
   */
  lemma {:induction false} ControllerInvariant(c: ControllerState, b: BodyState, ticks: seq<Tick>)
    requires 0.0 <= c.yaw < TAU
    requires forall k :: 0 <= k < |ticks| ==> ticks[k].intent.look.x >= -TAU
    ensures var (c', b') := Simulate(c, b, ticks);
      && 0.0 <= c'.yaw < TAU
      && (ticks != [] ==>
            && MIN_PITCH <= c'.cameraPitch <= MAX_PITCH
            && MIN_DISTANCE <= c'.cameraDistance <= MAX_DISTANCE
            && b'.position.rotation == YawRotation(c'.yaw))
  {
    if ticks != [] {
      ControllerInvariant(c, b, ticks[..|ticks| - 1]);
    }
  }

  /**
   * The horizontal velocity follows the entity's axes: with forward and right
   * reversed (the entity turned half a turn) the same intent moves it the
   * opposite way.
   */
  lemma DirectionFollowsAxes(view: EntityView, movement: Vec2)
    ensures var turned := view.(forward := view.forward.Times(-1.0), right := view.right.Times(-1.0));
      Direction(turned, movement) == Direction(view, movement).Times(-1.0)
  {
  }

  /** The body of the loop of `update_player`, for one player entity. */
  method UpdateEntity(player: CharacterController, body: RigidBody, intent: Intent, view: EntityView)
    returns (target: seq<CameraTarget>)
    modifies player, body
    ensures player.State() == StepController(old(player.State()), intent, view)
    ensures body.State() == BodyAfter(old(body.State()), player.State(), intent, view)
    ensures target == CameraTargetOf(player.State())
  {
    player.yaw := player.yaw + intent.look.x;
    player.yaw := TruncRem(player.yaw + TAU, TAU);

    player.cameraPitch := player.cameraPitch + intent.look.y;
    player.cameraPitch := Min(Max(player.cameraPitch, MIN_PITCH), MAX_PITCH);

    player.cameraDistance := player.cameraDistance + intent.zoom;
    player.cameraDistance := Min(Max(player.cameraDistance, MIN_DISTANCE), MAX_DISTANCE);

    var direction := view.forward.Times(intent.movement.y).Plus(view.right.Times(intent.movement.x));

    match CastRay(view.nearest, RAY_RANGE) {
      case Some(hit) =>
        player.grounded := hit.slopeDegrees < MAX_SLOPE_DEGREES;
      case None =>
        player.grounded := false;
    }

    if player.grounded {
      var linvel := body.linvel;
      linvel := linvel.(x := direction.x);
      linvel := linvel.(z := direction.z);
      body.SetLinvel(linvel);
      if intent.jump {
        body.ApplyImpulse(JUMP_IMPULSE);
      }
    }

    var position := body.position;
    position := position.(rotation := YawRotation(player.yaw));
    body.SetPosition(position);

    target := [];
    if player.cameraEntity.Some? {
      target := [CameraTarget(player.cameraEntity.value, player.cameraPitch, player.cameraDistance)];
    }
  }

  /** A player entity's controller and body stepped once from the given states. */
  ghost predicate Updated(player: CharacterController, body: RigidBody, c0: ControllerState, b0: BodyState,
                          intent: Intent, view: EntityView)
    reads player, body
  {
    && player.State() == StepController(c0, intent, view)
    && body.State() == BodyAfter(b0, player.State(), intent, view)
  }

  /**
   * `update_player`: the input read once and scaled, then every player
   * entity, with its controller, its rigid body and what it sees, stepped with
   * it; returns the camera targets in query order.
   */
  method UpdatePlayer(dt: real, input: Input.InputBindings, players: seq<CharacterController>,
                      bodies: seq<RigidBody>, views: seq<EntityView>)
    returns (camPositions: seq<CameraTarget>, ghost after: seq<ControllerState>)
    requires |players| == |bodies| == |views|
    requires forall i, j :: 0 <= i < j < |players| ==> players[i] != players[j] && bodies[i] != bodies[j]
    modifies players, bodies
    ensures |after| == |players|
    ensures forall k :: 0 <= k < |players| ==>
      var intent := ScaleInput(input.movement, input.look, input.scroll, input.doJump, dt);
      && after[k] == players[k].State()
      && after[k] == StepController(old(players[k].State()), intent, views[k])
      && bodies[k].State() == BodyAfter(old(bodies[k].State()), after[k], intent, views[k])
    ensures camPositions == CameraTargets(after)
  {
    var movement := input.Movement();
    var look := input.Look();
    var scroll := input.Scroll();
    var jump := input.DoJump();
    var intent := ScaleInput(movement, look, scroll, jump, dt);
    camPositions, after := UpdateEntities(intent, players, bodies, views);
  }

  /** The loop of `update_player` over the player entities, with the tick's scaled input. */
  method UpdateEntities(intent: Intent, players: seq<CharacterController>, bodies: seq<RigidBody>,
                        views: seq<EntityView>)
    returns (camPositions: seq<CameraTarget>, ghost after: seq<ControllerState>)
    requires |players| == |bodies| == |views|
    requires forall i, j :: 0 <= i < j < |players| ==> players[i] != players[j] && bodies[i] != bodies[j]
    modifies players, bodies
    ensures |after| == |players|
    ensures forall k :: 0 <= k < |players| ==> after[k] == players[k].State()
    ensures forall k :: 0 <= k < |players| ==>
      Updated(players[k], bodies[k], old(players[k].State()), old(bodies[k].State()), intent, views[k])
    ensures camPositions == CameraTargets(after)
  {
    camPositions, after := [], [];
    for i := 0 to |players|
      invariant |after| == i
      invariant forall k {:trigger players[k]} :: 0 <= k < i ==> after[k] == players[k].State()
      invariant forall k {:trigger players[k]} :: 0 <= k < i ==>
        Updated(players[k], bodies[k], old(players[k].State()), old(bodies[k].State()), intent, views[k])
      invariant forall k :: i <= k < |players| ==>
        players[k].State() == old(players[k].State()) && bodies[k].State() == old(bodies[k].State())
      invariant camPositions == CameraTargets(after)
    {
      var target := UpdateEntity(players[i], bodies[i], intent, views[i]);
      CameraTargetsSnoc(after, players[i].State());
      after := after + [players[i].State()];
      camPositions := camPositions + target;
    }
  }
}
