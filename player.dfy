/**
 * The player (Utility/Player.cs): one tick turns the player with A and D,
 * picks a walking direction from W and S, jumps on a Space press while
 * grounded, applies gravity in the air, moves (input, vertical velocity and
 * the carry of the platform stood on or of the air momentum), cancels the
 * input part of the move against walls, lands on the highest supporting
 * platform or on the static floor, and chooses the animation.
 *
 * Sine and cosine of an angle in degrees and vector normalisation are
 * parameters of the model (`Maths`); the keyboard state is a value (`Input`).
 */
module Players {
  import opened Wrappers
  import opened Vectors
  import opened Platforms
  import opened Course
  import opened Animations

  const JumpForce: real := 7.5
  const PlayerRadius: real := 0.3
  const PlayerSpeed: real := 3.5
  /** Degrees per second turned while A or D is held. */
  const PlayerRotationSpeed: real := 300.0
  const StartYaw: real := 180.0
  const StartGroundLevel: real := 0.5
  /** The walking direction is used only when its squared length exceeds this. */
  const MinMoveLengthSquared: real := 0.01
  /** The model is drawn rotated by -90 degrees about X. */
  const Pitch: real := -90.0

  /** Keys held this frame (A, D, W, S) and whether Space went down this frame. */
  datatype Input = Input(keyA: bool, keyD: bool, keyW: bool, keyS: bool, spacePressed: bool)

  /** Sine and cosine of an angle given in degrees, and vector normalisation. */
  datatype Maths = Maths(sinDeg: real -> real, cosDeg: real -> real, normalized: Vec3 -> Vec3)

  /** The player's physical state; `groundLevel` is the height of the static floor. */
  datatype Body = Body(position: Vec3, velocity: Vec3, grounded: bool, groundLevel: real, yaw: real, rotation: Vec3)

  const StartBody: Body := Body(Zero, Zero, true, StartGroundLevel, StartYaw, Zero)

  /** The yaw after A (turn left) and D (turn right), before wrapping. */
  function Turned(yaw: real, input: Input, dt: real): real {
    var y := if input.keyA then yaw + PlayerRotationSpeed * dt else yaw;
    if input.keyD then y - PlayerRotationSpeed * dt else y
  }

  /** The angle in [0, 360) that differs from `y` by a whole number of turns. */
  function Wrapped(y: real): (r: real)
    ensures 0.0 <= r < 360.0
  {
    y - 360.0 * ((y / 360.0).Floor as real)
  }

  lemma WrappedRange(y: real)
    ensures 0.0 <= Wrapped(y) < 360.0
  {
  }

  /** Wrapping is the only shift by whole turns that lands in [0, 360). */
  lemma WrappedUnique(y: real, k: int)
    requires 0.0 <= y + 360.0 * (k as real) < 360.0
    ensures Wrapped(y) == y + 360.0 * (k as real)
  {
    var f := (y / 360.0).Floor;
    assert y / 360.0 + k as real >= 0.0;
    assert y / 360.0 + k as real < 1.0;
    assert f == -k;
  }

  /** Section 1: turning, then wrapping into [0, 360). */
  function Turning(b: Body, input: Input, dt: real): Body {
    b.(yaw := Wrapped(Turned(b.yaw, input, dt)))
  }

  predicate MoveKeyHeld(input: Input) {
    input.keyW || input.keyS
  }

  /** Section 2: the walking direction, backward when S is held (even with W), forward with W alone. */
  function Direction(yaw: real, input: Input, m: Maths): Vec3 {
    if input.keyS then Vec3(-m.sinDeg(yaw), 0.0, -m.cosDeg(yaw))
    else if input.keyW then Vec3(m.sinDeg(yaw), 0.0, m.cosDeg(yaw))
    else Zero
  }

  /** A jump: Space pressed this frame while grounded. */
  predicate Jumps(b: Body, input: Input) {
    input.spacePressed && b.grounded
  }

  /** Section 3: a jump sets the vertical velocity, keeps the horizontal one and leaves the ground. */
  function Launching(b: Body, input: Input): Body {
    if Jumps(b, input) then b.(velocity := Vec3(b.velocity.x, JumpForce, b.velocity.z), grounded := false) else b
  }

  /** Section 3: a jump restarts the jumping animation. */
  function LaunchAnim(b: Body, a: Playback, input: Input): Playback {
    if Jumps(b, input) then Play(a, "jumping", true) else a
  }

  /** Section 4: gravity acts in the air. */
  function Falling(b: Body, gravity: real, dt: real): Body {
    if !b.grounded then b.(velocity := Vec3(b.velocity.x, b.velocity.y + gravity * dt, b.velocity.z)) else b
  }

  /** Section 5A: the input part of the move. */
  function Walk(dir: Vec3, moving: bool, m: Maths, dt: real): Vec3 {
    if moving && LengthSquared(dir) > MinMoveLengthSquared then Scale(Scale(m.normalized(dir), PlayerSpeed), dt)
    else Zero
  }

  /** Section 5B: the vertical part of the move. */
  function Vertical(b: Body, dt: real): Vec3 {
    Vec3(0.0, b.velocity.y * dt, 0.0)
  }

  /**
   * Section 5C, the carry: on a platform while grounded, exactly the
   * platform's last displacement; in the air, the horizontal velocity over
   * the tick; grounded off any platform, nothing.
   */
  function Carry(before: Support, grounded: bool, v: Vec3, dt: real): Vec3 {
    if before.onGround && grounded then before.delta
    else if !grounded then Scale(Vec3(v.x, 0.0, v.z), dt)
    else Zero
  }

  function CarryOf(b: Body, dt: real, states: seq<PlatformState>): Vec3 {
    Carry(SupportScan(states, b.position, PlayerRadius), b.grounded, b.velocity, dt)
  }

  /** The position the three parts of the move lead to. */
  function Intended(b: Body, horizontal: Vec3, dt: real, states: seq<PlatformState>): Vec3 {
    Add(Add(Add(b.position, horizontal), Vertical(b, dt)), CarryOf(b, dt, states))
  }

  /** Section 6: when grounded or not rising, a wall in the way drops the input part of the move. */
  function TargetOf(b: Body, horizontal: Vec3, dt: real, states: seq<PlatformState>): Vec3 {
    var intended := Intended(b, horizontal, dt, states);
    if (b.grounded || b.velocity.y <= 0.0) && WallBlocks(states, b.position, intended, PlayerRadius)
    then Add(Add(b.position, Vertical(b, dt)), CarryOf(b, dt, states))
    else intended
  }

  /** Where the tick ends: the position, velocity and grounded flag, and whether it landed. */
  datatype Landing = Landing(position: Vec3, velocity: Vec3, grounded: bool, landed: bool)

  /**
   * Section 7: landing in order: on a supporting platform when not rising
   * (on its surface, taking its horizontal velocity); else on the static
   * floor when at or below it (stopped); else in the air.
   */
  function Settle(target: Vec3, after: Support, v: Vec3, groundLevel: real): (r: Landing)
    requires after.onGround ==> after.highestSurface.Some?
    ensures r.grounded == r.landed
    ensures r.position.x == target.x && r.position.z == target.z
    ensures !r.landed ==> r.position == target && r.velocity == v && target.y > groundLevel
  {
    if after.onGround && v.y <= 0.0 then
      Landing(Vec3(target.x, after.highestSurface.value + PlayerRadius, target.z),
              Vec3(after.velocity.x, 0.0, after.velocity.z), true, true)
    else if target.y <= groundLevel then
      Landing(Vec3(target.x, groundLevel, target.z), Zero, true, true)
    else
      Landing(target, v, false, false)
  }

  function LandingAt(b: Body, target: Vec3, states: seq<PlatformState>): Landing {
    Settle(target, SupportScan(states, target, PlayerRadius), b.velocity, b.groundLevel)
  }

  /** Sections 7 and 8: the body after landing (or not). */
  function Landed(b: Body, l: Landing): Body {
    b.(position := l.position, velocity := l.velocity, grounded := l.grounded)
  }

  /** On landing, a finished jump animation gives way to walking or idling. */
  function LandAnim(a: Playback, moving: bool): Playback {
    if NameOf(a) == "jumping" && Finished(a) then Play(a, if moving then "walking" else "idle", true) else a
  }

  /** Section 9: while grounded and not jumping, moving starts walking and stopping while walking starts idling. */
  function GroundAnim(a: Playback, grounded: bool, moving: bool): Playback {
    if grounded && NameOf(a) != "jumping" then
      if moving && NameOf(a) != "walking" then Play(a, "walking", true)
      else if !moving && NameOf(a) == "walking" then Play(a, "idle", true)
      else a
    else a
  }

  /** Everything one tick decides before the landing check. */
  datatype Plan = Plan(anim: Playback, body: Body, moving: bool, horizontal: Vec3)

  /** Sections 1 to 5A, which do not consult the platforms. */
  function PlanMove(b: Body, a: Playback, input: Input, dt: real, gravity: real, m: Maths): Plan {
    var turned := Turning(b, input, dt);
    var fallen := Falling(Launching(turned, input), gravity, dt);
    Plan(LaunchAnim(turned, Tick(a, dt), input), fallen, MoveKeyHeld(input),
         Walk(Direction(turned.yaw, input, m), MoveKeyHeld(input), m, dt))
  }

  /** The result of a tick, with the position at which the landing was checked. */
  datatype Outcome = Outcome(body: Body, anim: Playback, target: Vec3)

  /** One tick of the player against the platforms `states`. */
  function Step(b: Body, a: Playback, input: Input, dt: real, gravity: real,
                states: seq<PlatformState>, m: Maths): Outcome
  {
    Conclude(PlanMove(b, a, input, dt, gravity, m), dt, states)
  }

  /** Sections 5B to 9: move against the platforms, land, pick the ground animation and set the rotation. */
  function Conclude(p: Plan, dt: real, states: seq<PlatformState>): Outcome {
    var target := TargetOf(p.body, p.horizontal, dt, states);
    var l := LandingAt(p.body, target, states);
    var landed := Landed(p.body, l);
    var anim := if l.landed then LandAnim(p.anim, p.moving) else p.anim;
    Outcome(landed.(rotation := Vec3(Pitch, landed.yaw, 0.0)), GroundAnim(anim, landed.grounded, p.moving), target)
  }

  /** After a tick the yaw is in [0, 360), differs from the turned yaw by whole turns, and is the model's Y rotation. */
  lemma StepYaw(b: Body, a: Playback, input: Input, dt: real, gravity: real, states: seq<PlatformState>, m: Maths, k: int)
    ensures var o := Step(b, a, input, dt, gravity, states, m);
      0.0 <= o.body.yaw < 360.0 &&
      (0.0 <= Turned(b.yaw, input, dt) + 360.0 * (k as real) < 360.0 ==>
        o.body.yaw == Turned(b.yaw, input, dt) + 360.0 * (k as real)) &&
      o.body.rotation == Vec3(Pitch, o.body.yaw, 0.0)
  {
    WrappedRange(Turned(b.yaw, input, dt));
    if 0.0 <= Turned(b.yaw, input, dt) + 360.0 * (k as real) < 360.0 {
      WrappedUnique(Turned(b.yaw, input, dt), k);
    }
  }

  /** Holding A and D together, or neither, leaves an in-range yaw as it was. */
  lemma StillYaw(b: Body, a: Playback, input: Input, dt: real, gravity: real, states: seq<PlatformState>, m: Maths)
    requires input.keyA == input.keyD && 0.0 <= b.yaw < 360.0
    ensures Step(b, a, input, dt, gravity, states, m).body.yaw == b.yaw
  {
    WrappedUnique(b.yaw, 0);
  }

  /** A alone turns by +300 degrees per second, D alone by -300, when that stays in [0, 360). */
  lemma TurnRate(b: Body, a: Playback, input: Input, dt: real, gravity: real, states: seq<PlatformState>, m: Maths)
    requires input.keyA != input.keyD
    requires var y := if input.keyA then b.yaw + 300.0 * dt else b.yaw - 300.0 * dt; 0.0 <= y < 360.0
    ensures Step(b, a, input, dt, gravity, states, m).body.yaw ==
      if input.keyA then b.yaw + 300.0 * dt else b.yaw - 300.0 * dt
  {
    WrappedUnique(Turned(b.yaw, input, dt), 0);
  }

  /** With S held the player walks backward, whether or not W is held too; with neither there is no input move. */
  lemma BackwardWins(b: Body, a: Playback, input: Input, dt: real, gravity: real, states: seq<PlatformState>, m: Maths)
    ensures var p := PlanMove(b, a, input, dt, gravity, m);
      var yaw := p.body.yaw;
      (input.keyS ==> p.moving && Direction(yaw, input, m) == Vec3(-m.sinDeg(yaw), 0.0, -m.cosDeg(yaw))) &&
      (input.keyW && !input.keyS ==> p.moving && Direction(yaw, input, m) == Vec3(m.sinDeg(yaw), 0.0, m.cosDeg(yaw))) &&
      (!input.keyW && !input.keyS ==> !p.moving && p.horizontal == Zero)
  {
  }

  /**
   * A jump happens exactly on a Space press while grounded: it sets the
   * vertical velocity to 7.5 (then gravity applies), keeps the horizontal
   * velocity, clears grounded, and restarts the jumping animation if loaded.
   * Gravity applies exactly when the player is in the air after this.
   */
  lemma JumpAndGravity(b: Body, a: Playback, input: Input, dt: real, gravity: real, states: seq<PlatformState>, m: Maths)
    ensures var p := PlanMove(b, a, input, dt, gravity, m);
      var jumped := input.spacePressed && b.grounded;
      (p.body.grounded <==> b.grounded && !input.spacePressed) &&
      p.body.velocity.x == b.velocity.x && p.body.velocity.z == b.velocity.z &&
      p.body.velocity.y == (if jumped then JumpForce else b.velocity.y) + (if p.body.grounded then 0.0 else gravity * dt) &&
      (jumped && "jumping" in a.animations ==>
        p.anim.current == a.animations["jumping"] && p.anim.index == 0 && p.anim.timer == 0.0) &&
      (!jumped ==> p.anim == Tick(a, dt))
  {
  }

  /** In the air a Space press does nothing: the plan is the same as without it. */
  lemma NoJumpInAir(b: Body, a: Playback, input: Input, dt: real, gravity: real, m: Maths)
    requires !b.grounded
    ensures PlanMove(b, a, input, dt, gravity, m) == PlanMove(b, a, input.(spacePressed := false), dt, gravity, m)
  {
  }

  /** The carry table, by the state before the move. */
  lemma CarryTable(b: Body, dt: real, states: seq<PlatformState>)
    ensures b.grounded && (exists i :: 0 <= i < |states| && Supports(states[i], b.position, PlayerRadius)) ==>
      exists i :: FirstHighest(states, i, b.position, PlayerRadius) && CarryOf(b, dt, states) == states[i].delta
    ensures !b.grounded ==> CarryOf(b, dt, states) == Scale(Vec3(b.velocity.x, 0.0, b.velocity.z), dt)
    ensures b.grounded && (forall i :: 0 <= i < |states| ==> !Supports(states[i], b.position, PlayerRadius)) ==>
      CarryOf(b, dt, states) == Zero
  {
    SupportScanOnGround(states, b.position, PlayerRadius);
    SupportScanHighest(states, b.position, PlayerRadius);
  }

  /**
   * The wall test runs only when grounded or not rising; when it finds a
   * wall, the input part of the move is dropped and the vertical move and
   * carry are kept. Rising through a platform is never blocked.
   */
  lemma WallCancel(b: Body, horizontal: Vec3, dt: real, states: seq<PlatformState>)
    ensures var intended := Add(Add(Add(b.position, horizontal), Vertical(b, dt)), CarryOf(b, dt, states));
      ((b.grounded || b.velocity.y <= 0.0) && WallBlocks(states, b.position, intended, PlayerRadius) ==>
        TargetOf(b, horizontal, dt, states) == Add(Add(b.position, Vertical(b, dt)), CarryOf(b, dt, states))) &&
      (!b.grounded && b.velocity.y > 0.0 ==> TargetOf(b, horizontal, dt, states) == intended) &&
      (!WallBlocks(states, b.position, intended, PlayerRadius) ==> TargetOf(b, horizontal, dt, states) == intended)
  {
  }

  /**
   * Landing, in order: on the first highest supporting platform when not
   * rising (0.3 above its surface, with its horizontal velocity); otherwise
   * on the static floor when at or below it (velocity zero); otherwise in
   * the air, keeping the planned position and velocity.
   */
  lemma LandingOrder(b: Body, a: Playback, input: Input, dt: real, gravity: real, states: seq<PlatformState>, m: Maths)
    ensures var p := PlanMove(b, a, input, dt, gravity, m);
      var o := Step(b, a, input, dt, gravity, states, m);
      var t := o.target;
      var supported := exists i :: 0 <= i < |states| && Supports(states[i], t, PlayerRadius);
      t == TargetOf(p.body, p.horizontal, dt, states) &&
      (supported && p.body.velocity.y <= 0.0 ==>
        o.body.grounded && o.body.position.x == t.x && o.body.position.z == t.z &&
        exists i :: FirstHighest(states, i, t, PlayerRadius) &&
          o.body.position.y == SurfaceFor(states[i], t, PlayerRadius) + PlayerRadius &&
          o.body.velocity == Vec3(Velocity(states[i]).x, 0.0, Velocity(states[i]).z)) &&
      (!(supported && p.body.velocity.y <= 0.0) && t.y <= b.groundLevel ==>
        o.body.grounded && o.body.position == Vec3(t.x, b.groundLevel, t.z) && o.body.velocity == Zero) &&
      (!(supported && p.body.velocity.y <= 0.0) && t.y > b.groundLevel ==>
        !o.body.grounded && o.body.position == t && o.body.velocity == p.body.velocity)
  {
    var t := Step(b, a, input, dt, gravity, states, m).target;
    SupportScanOnGround(states, t, PlayerRadius);
    SupportScanHighest(states, t, PlayerRadius);
  }

  /** A player left in the air is above the static floor. */
  lemma AirborneAboveFloor(b: Body, a: Playback, input: Input, dt: real, gravity: real, states: seq<PlatformState>, m: Maths)
    ensures var o := Step(b, a, input, dt, gravity, states, m);
      !o.body.grounded ==> o.body.position.y > b.groundLevel
  {
  }

  /** The animation named `name` is loaded under that name. */
  predicate Labelled(a: Playback, name: string) {
    name in a.animations && a.animations[name].name == name
  }

  /** The jumping animation is left only on a landing, and only once it has finished. */
  lemma LeaveJumpOnlyOnLanding(b: Body, a: Playback, input: Input, dt: real, gravity: real, states: seq<PlatformState>, m: Maths)
    ensures var p := PlanMove(b, a, input, dt, gravity, m);
      var o := Step(b, a, input, dt, gravity, states, m);
      NameOf(p.anim) == "jumping" && NameOf(o.anim) != "jumping" ==> o.body.grounded && Finished(p.anim)
  {
  }

  /** Grounded and not jumping: moving ends in "walking", and stopping while walking ends in "idle". */
  lemma GroundedAnimation(b: Body, a: Playback, input: Input, dt: real, gravity: real, states: seq<PlatformState>, m: Maths)
    ensures var p := PlanMove(b, a, input, dt, gravity, m);
      var o := Step(b, a, input, dt, gravity, states, m);
      (o.body.grounded && NameOf(p.anim) != "jumping" && p.moving && Labelled(p.anim, "walking") ==>
        NameOf(o.anim) == "walking") &&
      (o.body.grounded && NameOf(p.anim) == "walking" && !p.moving && Labelled(p.anim, "idle") ==>
        NameOf(o.anim) == "idle") &&
      (!o.body.grounded ==> o.anim == p.anim)
  {
  }

  /** The player: a physical body driven by an animated model. Drawing is not modelled. */
  class Player {
    const model: AnimatedModel
    const gravity: real
    var position: Vec3
    var scale: Vec3
    var rotation: Vec3
    var yaw: real
    var velocity: Vec3
    var isGrounded: bool
    var groundLevel: real

    function Snapshot(): Body
      reads this
    {
      Body(position, velocity, isGrounded, groundLevel, yaw, rotation)
    }

    /** The yaw stays in [0, 360). */
    predicate Valid()
      reads this
    {
      0.0 <= yaw < 360.0
    }

    constructor (model: AnimatedModel, gravity: real)
      ensures Snapshot() == StartBody && Valid()
      ensures scale == Vec3(1.0, 1.0, 1.0)
      ensures this.model == model && this.gravity == gravity
    {
      this.model := model;
      this.gravity := gravity;
      position := Zero;
      scale := Vec3(1.0, 1.0, 1.0);
      rotation := Zero;
      yaw := StartYaw;
      velocity := Zero;
      isGrounded := true;
      groundLevel := StartGroundLevel;
    }

    /**
     * One tick, section by section. The platform manager's support query
     * runs twice (before the move and at the target), so it advances the
     * checkpoint and latches the finish at both positions.
     */
    method Update(dt: real, input: Input, platformManager: PlatformManager, m: Maths)
      requires platformManager.Valid()
      modifies this, model, platformManager
      ensures Valid() && platformManager.Valid()
      ensures var o := Step(old(Snapshot()), old(model.State()), input, dt, gravity,
                             old(StatesOf(platformManager.platforms)), m);
        Snapshot() == o.body && model.State() == o.anim &&
        platformManager.currentCheckpoint ==
          CheckpointScan(CheckpointScan(old(platformManager.currentCheckpoint), old(StatesOf(platformManager.platforms)),
                                        old(position), PlayerRadius),
                         old(StatesOf(platformManager.platforms)), o.target, PlayerRadius) &&
        platformManager.isGameComplete == (old(platformManager.isGameComplete) ||
          ReachesFinal(old(StatesOf(platformManager.platforms)), old(position), PlayerRadius) ||
          ReachesFinal(old(StatesOf(platformManager.platforms)), o.target, PlayerRadius))
      ensures platformManager.platforms == old(platformManager.platforms)
      ensures platformManager.checkpointMap == old(platformManager.checkpointMap)
      ensures scale == old(scale)
    {
      ghost var states := StatesOf(platformManager.platforms);
      ghost var plan := PlanMove(Snapshot(), model.State(), input, dt, gravity, m);
      ghost var o := Conclude(plan, dt, states);
      assert o == Step(Snapshot(), model.State(), input, dt, gravity, states, m);
      var isMoving, horizontalMovement := Prepare(input, dt, m);
      assert StatesOf(platformManager.platforms) == states;
      assert Plan(model.State(), Snapshot(), isMoving, horizontalMovement) == plan;
      Finish(platformManager, isMoving, horizontalMovement, dt);
    }

    /** Sections 1 to 5A: animation tick, turning, direction, jump, gravity and the input move. */
    method Prepare(input: Input, dt: real, m: Maths) returns (isMoving: bool, horizontalMovement: Vec3)
      modifies this`yaw, this`velocity, this`isGrounded, model
      ensures var p := PlanMove(old(Snapshot()), old(model.State()), input, dt, gravity, m);
        Snapshot() == p.body && model.State() == p.anim && isMoving == p.moving && horizontalMovement == p.horizontal
      ensures Valid()
    {
      model.Update(dt);
      Turn(input, dt);
      var moveDirection;
      isMoving, moveDirection := Steer(input, m);
      Jump(input);
      ApplyGravity(dt);
      horizontalMovement := Zero;
      if isMoving && LengthSquared(moveDirection) > MinMoveLengthSquared {
        horizontalMovement := Scale(Scale(m.normalized(moveDirection), PlayerSpeed), dt);
      }
    }

    /** Sections 5B to 9, against the platforms of `platformManager`. */
    method Finish(platformManager: PlatformManager, isMoving: bool, horizontalMovement: Vec3, dt: real)
      requires platformManager.Valid()
      modifies this`position, this`velocity, this`isGrounded, this`rotation, model, platformManager
      ensures platformManager.Valid()
      ensures var o := Conclude(Plan(old(model.State()), old(Snapshot()), isMoving, horizontalMovement), dt,
                                old(StatesOf(platformManager.platforms)));
        Snapshot() == o.body && model.State() == o.anim &&
        platformManager.currentCheckpoint ==
          CheckpointScan(CheckpointScan(old(platformManager.currentCheckpoint), old(StatesOf(platformManager.platforms)),
                                        old(position), PlayerRadius),
                         old(StatesOf(platformManager.platforms)), o.target, PlayerRadius) &&
        platformManager.isGameComplete == (old(platformManager.isGameComplete) ||
          ReachesFinal(old(StatesOf(platformManager.platforms)), old(position), PlayerRadius) ||
          ReachesFinal(old(StatesOf(platformManager.platforms)), o.target, PlayerRadius))
      ensures platformManager.platforms == old(platformManager.platforms)
      ensures platformManager.checkpointMap == old(platformManager.checkpointMap)
    {
      ghost var states := StatesOf(platformManager.platforms);
      ghost var plan := Plan(model.State(), Snapshot(), isMoving, horizontalMovement);
      ghost var o := Conclude(plan, dt, states);
      var intendedPosition := Move(platformManager, horizontalMovement, dt);
      var isOnPlatform, platformSurfaceY, platformVelocity, platformDelta :=
        platformManager.CheckPlayerOnPlatform(intendedPosition, PlayerRadius);
      assert StatesOf(platformManager.platforms) == states;
      assert intendedPosition == o.target;
      ghost var l := LandingAt(plan.body, intendedPosition, states);
      assert l == Settle(intendedPosition, Support(isOnPlatform, platformSurfaceY, platformVelocity, Zero),
                         velocity, groundLevel);
      Arrive(intendedPosition, isOnPlatform, platformSurfaceY, platformVelocity, isMoving);
    }

    /** Section 1: A and D turn the player, and the yaw is wrapped into [0, 360). */
    method Turn(input: Input, dt: real)
      modifies this`yaw
      ensures Snapshot() == Turning(old(Snapshot()), input, dt) && Valid()
    {
      ghost var turned := Turned(yaw, input, dt);
      if input.keyA {
        yaw := yaw + PlayerRotationSpeed * dt;
      }
      if input.keyD {
        yaw := yaw - PlayerRotationSpeed * dt;
      }
      ghost var k: int := 0;
      while yaw >= 360.0
        invariant yaw == turned + 360.0 * (k as real)
        invariant Snapshot() == old(Snapshot()).(yaw := yaw)
        decreases yaw.Floor
      {
        yaw := yaw - 360.0;
        k := k - 1;
      }
      while yaw < 0.0
        invariant yaw == turned + 360.0 * (k as real) && yaw < 360.0
        invariant Snapshot() == old(Snapshot()).(yaw := yaw)
        decreases -yaw.Floor
      {
        yaw := yaw + 360.0;
        k := k + 1;
      }
      WrappedUnique(turned, k);
    }

    /** Section 2: W walks forward, S backward; S is looked at last, so it wins. */
    method Steer(input: Input, m: Maths) returns (isMoving: bool, moveDirection: Vec3)
      ensures isMoving == MoveKeyHeld(input) && moveDirection == Direction(yaw, input, m)
    {
      isMoving := false;
      moveDirection := Zero;
      if input.keyW {
        moveDirection := Vec3(m.sinDeg(yaw), 0.0, m.cosDeg(yaw));
        isMoving := true;
      }
      if input.keyS {
        moveDirection := Vec3(-m.sinDeg(yaw), 0.0, -m.cosDeg(yaw));
        isMoving := true;
      }
    }

    /** Section 3: a Space press while grounded launches the player and plays "jumping". */
    method Jump(input: Input)
      modifies this`velocity, this`isGrounded, model
      ensures Snapshot() == Launching(old(Snapshot()), input)
      ensures model.State() == LaunchAnim(old(Snapshot()), old(model.State()), input)
    {
      if input.spacePressed && isGrounded {
        velocity := Vec3(velocity.x, JumpForce, velocity.z);
        isGrounded := false;
        model.PlayAnimation("jumping", true);
      }
    }

    /** Section 4: gravity in the air. */
    method ApplyGravity(dt: real)
      modifies this`velocity
      ensures Snapshot() == Falling(old(Snapshot()), gravity, dt)
    {
      if !isGrounded {
        velocity := Vec3(velocity.x, velocity.y + gravity * dt, velocity.z);
      }
    }

    /** Sections 5B to 6: the vertical move, the carry from the support query at the current position, and the wall test. */
    method Move(platformManager: PlatformManager, horizontalMovement: Vec3, dt: real) returns (intendedPosition: Vec3)
      requires platformManager.Valid()
      modifies platformManager
      ensures platformManager.Valid()
      ensures platformManager.platforms == old(platformManager.platforms)
      ensures platformManager.checkpointMap == old(platformManager.checkpointMap)
      ensures StatesOf(platformManager.platforms) == old(StatesOf(platformManager.platforms))
      ensures intendedPosition == TargetOf(Snapshot(), horizontalMovement, dt, StatesOf(platformManager.platforms))
      ensures platformManager.currentCheckpoint ==
        CheckpointScan(old(platformManager.currentCheckpoint), StatesOf(platformManager.platforms), position, PlayerRadius)
      ensures platformManager.isGameComplete == (old(platformManager.isGameComplete) ||
        ReachesFinal(StatesOf(platformManager.platforms), position, PlayerRadius))
    {
      ghost var states := StatesOf(platformManager.platforms);
      var verticalMovement := Vec3(0.0, velocity.y * dt, 0.0);
      var wasOnPlatform, surfaceBefore, velocityBefore, currentPlatformDelta :=
        platformManager.CheckPlayerOnPlatform(position, PlayerRadius);
      assert StatesOf(platformManager.platforms) == states;
      ghost var before := Support(wasOnPlatform, surfaceBefore, velocityBefore, currentPlatformDelta);
      assert before == SupportScan(states, position, PlayerRadius);
      var platformMovement := Zero;
      if wasOnPlatform && isGrounded {
        platformMovement := currentPlatformDelta;
      } else if !isGrounded {
        platformMovement := Scale(Vec3(velocity.x, 0.0, velocity.z), dt);
      }
      assert platformMovement == CarryOf(Snapshot(), dt, states);
      intendedPosition := Add(Add(Add(position, horizontalMovement), verticalMovement), platformMovement);
      assert intendedPosition == Intended(Snapshot(), horizontalMovement, dt, states);
      assert Add(Add(position, verticalMovement), platformMovement) ==
        Add(Add(position, Vertical(Snapshot(), dt)), CarryOf(Snapshot(), dt, states));
      if isGrounded || velocity.y <= 0.0 {
        var blocked := platformManager.CheckWallCollision(position, intendedPosition, PlayerRadius);
        if blocked {
          intendedPosition := Add(Add(position, verticalMovement), platformMovement);
        }
      }
    }

    /** Sections 7 to 9: land, pick the ground animation and set the model's rotation from the yaw. */
    method Arrive(intendedPosition: Vec3, isOnPlatform: bool, platformSurfaceY: Option<real>, platformVelocity: Vec3,
                  isMoving: bool)
      requires isOnPlatform ==> platformSurfaceY.Some?
      modifies this`position, this`isGrounded, this`velocity, this`rotation, model
      ensures var l := Settle(intendedPosition, Support(isOnPlatform, platformSurfaceY, platformVelocity, Zero),
                              old(velocity), old(groundLevel));
        var landed := Landed(old(Snapshot()), l);
        Snapshot() == landed.(rotation := Vec3(Pitch, landed.yaw, 0.0)) &&
        model.State() == GroundAnim(if l.landed then LandAnim(old(model.State()), isMoving) else old(model.State()),
                                    l.grounded, isMoving)
    {
      Land(intendedPosition, isOnPlatform, platformSurfaceY, platformVelocity, isMoving);
      Animate(isMoving);
      rotation := Vec3(Pitch, yaw, 0.0);
    }

    /** Sections 7 and 8: land on a platform or the floor, or stay in the air, and apply the position. */
    method Land(intendedPosition: Vec3, isOnPlatform: bool, platformSurfaceY: Option<real>, platformVelocity: Vec3,
                isMoving: bool)
      requires isOnPlatform ==> platformSurfaceY.Some?
      modifies this`position, this`isGrounded, this`velocity, model
      ensures var l := Settle(intendedPosition, Support(isOnPlatform, platformSurfaceY, platformVelocity, Zero),
                              old(velocity), old(groundLevel));
        Snapshot() == Landed(old(Snapshot()), l) &&
        model.State() == if l.landed then LandAnim(old(model.State()), isMoving) else old(model.State())
    {
      var target := intendedPosition;
      if isOnPlatform && velocity.y <= 0.0 {
        target := Vec3(target.x, platformSurfaceY.value + PlayerRadius, target.z);
        isGrounded := true;
        velocity := Vec3(platformVelocity.x, 0.0, platformVelocity.z);
        if model.GetCurrentAnimationName() == "jumping" && model.IsAnimationFinished() {
          model.PlayAnimation(if isMoving then "walking" else "idle");
        }
      } else {
        if target.y <= groundLevel {
          target := Vec3(target.x, groundLevel, target.z);
          isGrounded := true;
          velocity := Zero;
          if model.GetCurrentAnimationName() == "jumping" && model.IsAnimationFinished() {
            model.PlayAnimation(if isMoving then "walking" else "idle");
          }
        } else {
          isGrounded := false;
        }
      }
      position := target;
    }

    /** Section 9: while grounded and not jumping, walk when moving and idle when stopping. */
    method Animate(isMoving: bool)
      modifies model
      ensures model.State() == GroundAnim(old(model.State()), isGrounded, isMoving)
    {
      if isGrounded && model.GetCurrentAnimationName() != "jumping" {
        if isMoving && model.GetCurrentAnimationName() != "walking" {
          model.PlayAnimation("walking");
        } else if !isMoving && model.GetCurrentAnimationName() == "walking" {
          model.PlayAnimation("idle");
        }
      }
    }

    function GetYaw(): (r: real)
      reads this
      requires Valid()
      ensures 0.0 <= r < 360.0
    {
      yaw
    }
  }
}
