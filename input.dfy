/**
 * The `InputBindings` resource and `update_input`, which rebuilds it every
 * tick from the keyboard and the mouse events of that tick.
 */
module Input {
  import opened Maths

  /** The keys the controllers read. */
  datatype KeyCode = W | A | S | D | Space

  /** The keyboard as `Input<KeyCode>` reports it on one tick. */
  datatype Keyboard = Keyboard(pressed: set<KeyCode>, justPressed: set<KeyCode>)

  /** The contribution of two opposing keys to one movement axis. */
  function Axis(keyboard: Keyboard, plus: KeyCode, minus: KeyCode): (a: real)
    ensures a == 1.0 <==> plus in keyboard.pressed && minus !in keyboard.pressed
    ensures a == -1.0 <==> minus in keyboard.pressed && plus !in keyboard.pressed
    ensures a == 0.0 <==> (plus in keyboard.pressed <==> minus in keyboard.pressed)
  {
    (if plus in keyboard.pressed then 1.0 else 0.0) - (if minus in keyboard.pressed then 1.0 else 0.0)
  }

  /**
   * The movement keys read into a vector: W and S on y, D and A on x. Each
   * component is -1, 0 or 1, and two opposing keys cancel.
   */
  method ReadMovementKeys(keyboard: Keyboard) returns (movement: Vec2)
    ensures movement == KeyVector(keyboard)
  {
    movement := ZERO2;
    if W in keyboard.pressed {
      movement := movement.(y := movement.y + 1.0);
    }
    if S in keyboard.pressed {
      movement := movement.(y := movement.y - 1.0);
    }
    if D in keyboard.pressed {
      movement := movement.(x := movement.x + 1.0);
    }
    if A in keyboard.pressed {
      movement := movement.(x := movement.x - 1.0);
    }
  }

  /** The movement keys as a vector, before normalisation. */
  function KeyVector(keyboard: Keyboard): Vec2
  {
    Vec2(Axis(keyboard, D, A), Axis(keyboard, W, S))
  }

  /** A key vector has zero squared length exactly when it is zero. */
  lemma KeyVectorLength(keyboard: Keyboard)
    ensures KeyVector(keyboard).LengthSquared() == 0.0 <==> KeyVector(keyboard) == ZERO2
  {
    var v := KeyVector(keyboard);
    if v.x == 0.0 { assert v.x * v.x == 0.0; } else { assert v.x * v.x == 1.0; }
    if v.y == 0.0 { assert v.y * v.y == 0.0; } else { assert v.y * v.y == 1.0; }
  }

  /**
   * The movement of a tick: the key vector, normalised by the platform's
   * `normalize` unless its squared length is zero, in which case it stays zero.
   */
  function Movement(keyboard: Keyboard, normalize: Vec2 -> Vec2): (m: Vec2)
    ensures KeyVector(keyboard) == ZERO2 ==> m == ZERO2
    ensures KeyVector(keyboard) != ZERO2 ==> m == normalize(KeyVector(keyboard))
  {
    var v := KeyVector(keyboard);
    KeyVectorLength(keyboard);
    if v.LengthSquared() != 0.0 then normalize(v) else v
  }

  /** The sum of the mouse-motion deltas of one tick, in order of arrival. */
  function SumDeltas(deltas: seq<Vec2>): Vec2
  {
    if deltas == [] then ZERO2 else SumDeltas(deltas[..|deltas| - 1]).Plus(deltas[|deltas| - 1])
  }

  /** The sum of the wheel deltas of one tick, in order of arrival. */
  function SumReals(deltas: seq<real>): real
  {
    if deltas == [] then 0.0 else SumReals(deltas[..|deltas| - 1]) + deltas[|deltas| - 1]
  }

  /** Splitting one tick's motion events into two batches does not change their sum. */
  lemma {:induction false} SumDeltasAppend(a: seq<Vec2>, b: seq<Vec2>)
    ensures SumDeltas(a + b) == SumDeltas(a).Plus(SumDeltas(b))
    decreases |b|
  {
    if b != [] {
      var last := b[|b| - 1];
      assert (a + b)[..|a + b| - 1] == a + b[..|b| - 1];
      SumDeltasAppend(a, b[..|b| - 1]);
    } else {
      assert a + b == a;
    }
  }

  /** Splitting one tick's wheel events into two batches does not change their sum. */
  lemma {:induction false} SumRealsAppend(a: seq<real>, b: seq<real>)
    ensures SumReals(a + b) == SumReals(a) + SumReals(b)
    decreases |b|
  {
    if b != [] {
      assert (a + b)[..|a + b| - 1] == a + b[..|b| - 1];
      SumRealsAppend(a, b[..|b| - 1]);
    } else {
      assert a + b == a;
    }
  }

  /** One tick's player intent. */
  class InputBindings {
    var movement: Vec2
    var look: Vec2
    var doJump: bool
    var scroll: real

    /** `#[derive(Default)]`. */
    constructor ()
      ensures movement == ZERO2 && look == ZERO2 && !doJump && scroll == 0.0
    {
      movement, look, doJump, scroll := ZERO2, ZERO2, false, 0.0;
    }

    method Movement() returns (m: Vec2)
      ensures m == movement
    {
      m := movement;
    }

    method Look() returns (l: Vec2)
      ensures l == look
    {
      l := look;
    }

    method DoJump() returns (j: bool)
      ensures j == doJump
    {
      j := doJump;
    }

    method Scroll() returns (s: real)
      ensures s == scroll
    {
      s := scroll;
    }
  }

  /**
   * `update_input`: every field is rebuilt from this tick's keyboard and mouse
   * events, so nothing carries over from the previous tick.
   */
  method UpdateInput(input: InputBindings, keyboard: Keyboard, motions: seq<Vec2>, wheels: seq<real>,
                     normalize: Vec2 -> Vec2)
    modifies input
    ensures input.movement == Movement(keyboard, normalize)
    ensures input.doJump == (Space in keyboard.justPressed)
    ensures input.look == Vec2(SumDeltas(motions).x, -SumDeltas(motions).y)
    ensures input.scroll == -SumReals(wheels)
  {
    input.movement := ReadMovementKeys(keyboard);
    if input.movement.LengthSquared() != 0.0 {
      input.movement := normalize(input.movement);
    }

    input.doJump := Space in keyboard.justPressed;

    ghost var movement, doJump := input.movement, input.doJump;
    input.look := ZERO2;
    for i := 0 to |motions|
      invariant input.movement == movement && input.doJump == doJump
      invariant input.look == SumDeltas(motions[..i])
    {
      assert motions[..i + 1][..i] == motions[..i];
      input.look := input.look.Plus(motions[i]);
    }
    assert motions[..|motions|] == motions;
    input.look := input.look.(y := -input.look.y);

    ghost var look := input.look;
    input.scroll := 0.0;
    for i := 0 to |wheels|
      invariant input.movement == movement && input.doJump == doJump && input.look == look
      invariant input.scroll == -SumReals(wheels[..i])
    {
      assert wheels[..i + 1][..i] == wheels[..i];
      input.scroll := input.scroll - wheels[i];
    }
    assert wheels[..|wheels|] == wheels;
  }

  /** With no movement key held, or only opposing ones, the movement is exactly zero. */
  lemma CancelledKeysGiveNoMovement(keyboard: Keyboard, normalize: Vec2 -> Vec2)
    requires W in keyboard.pressed <==> S in keyboard.pressed
    requires D in keyboard.pressed <==> A in keyboard.pressed
    ensures Movement(keyboard, normalize) == ZERO2
  {
  }
}
