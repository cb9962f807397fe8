/**
 * A box-shaped collider of the parkour course (Utility/Platform.cs): its
 * surface and footprint tests, its wall test, and the ping-pong motion of a
 * moving platform.
 */
module Platforms {
  import opened Vectors

  /**
   * The platform kinds. The shown Platform.cs declares only Static and
   * Moving; PlatformManager.cs also uses CheckPoint and Final.
   */
  datatype Kind = Static | Moving | CheckPoint | Final

  /** The gameplay fields of one platform at one instant. */
  datatype PlatformState = PlatformState(
    position: Vec3,
    delta: Vec3,        // displacement made by the last Update
    width: real,        // extent along X
    height: real,       // extent along Y
    depth: real,        // extent along Z
    kind: Kind,
    start: Vec3,
    end: Vec3,
    speed: real,
    progress: real,
    checkpoint: int)

  /** Ticks per second assumed when a displacement is turned into a velocity. */
  const AssumedTickRate: real := 60.0

  /** Margin of the footprint used when testing whether the player stands on a platform. */
  const StandMargin: real := 0.05

  /** How far the player's bottom may sink below the surface and still stand on it. */
  const SinkTolerance: real := 0.1

  /** How far the player's bottom may hover above the surface and still stand on it. */
  const HoverTolerance: real := 0.15

  /**
   * C#'s `progress % 2.0f`: the remainder of truncated division, which has
   * the sign of `progress`; written as repeated removal of the period.
   */
  function Cycle(progress: real): real
    decreases if progress >= 0.0 then progress.Floor else (-progress).Floor
  {
    if progress >= 2.0 then Cycle(progress - 2.0)
    else if progress <= -2.0 then Cycle(progress + 2.0)
    else progress
  }

  /** The remainder lies in [0,2) for a non-negative progress and in (-2,0] otherwise. */
  lemma {:induction false} CycleRange(progress: real)
    ensures progress >= 0.0 ==> 0.0 <= Cycle(progress) < 2.0
    ensures progress < 0.0 ==> -2.0 < Cycle(progress) <= 0.0
    decreases if progress >= 0.0 then progress.Floor else (-progress).Floor
  {
    if progress >= 2.0 {
      CycleRange(progress - 2.0);
    } else if progress <= -2.0 {
      CycleRange(progress + 2.0);
    }
  }

  /** The ping-pong blend: a triangle wave of period 2 folding at 1. */
  function PingPong(progress: real): (t: real)
    ensures progress >= 0.0 ==> 0.0 <= t <= 1.0
  {
    CycleRange(progress);
    var c := Cycle(progress);
    if c > 1.0 then 2.0 - c else c
  }

  /** The platform after SetMovementPath: Moving, placed at `start`, with `end` and `speed` stored. */
  function WithPath(p: PlatformState, start: Vec3, end: Vec3, speed: real): (q: PlatformState)
    ensures q.kind == Moving && q.position == start && q.start == start && q.end == end && q.speed == speed
    ensures q.delta == p.delta && q.progress == p.progress && q.checkpoint == p.checkpoint
    ensures q.width == p.width && q.height == p.height && q.depth == p.depth
  {
    p.(kind := Moving, start := start, end := end, position := start, speed := speed)
  }

  /** One Update of `dt` seconds: only a Moving platform advances along its ping-pong path. */
  function Advance(p: PlatformState, dt: real): PlatformState {
    if p.kind == Moving then MoveTo(p, Stepped(p, dt))
    else p.(delta := Sub(p.position, p.position))
  }

  /** The progress after `dt` seconds at the platform's speed. */
  function Stepped(p: PlatformState, dt: real): real {
    p.progress + dt * p.speed
  }

  /** A Moving platform whose progress has become `progress`: its position on the ping-pong path. */
  function MoveTo(p: PlatformState, progress: real): PlatformState {
    var position := Lerp(p.start, p.end, PingPong(progress));
    p.(progress := progress, position := position, delta := Sub(position, p.position))
  }

  /**
   * An Update changes only position, delta and progress; delta is the
   * displacement the tick made; a platform that is not Moving stays where it
   * is, with a zero delta.
   */
  lemma AdvanceChangesOnlyMotion(p: PlatformState, dt: real)
    ensures Advance(p, dt).delta == Sub(Advance(p, dt).position, p.position)
    ensures Advance(p, dt).(position := p.position, delta := p.delta, progress := p.progress) == p
    ensures p.kind != Moving ==> Advance(p, dt) == p.(delta := Zero)
  {
  }

  /**
   * With a non-negative progress, a Moving platform lies on the segment from
   * start to end after every Update (a blend in [0, 1] of the two), and so
   * within their axis-aligned span: it never overshoots either end.
   */
  lemma MovingStaysInSpan(p: PlatformState, dt: real)
    requires p.kind == Moving
    requires p.progress + dt * p.speed >= 0.0
    ensures exists t :: 0.0 <= t <= 1.0 && Advance(p, dt).position == Lerp(p.start, p.end, t)
    ensures InSpan(Advance(p, dt).position, p.start, p.end)
  {
    MoveToInSpan(p, Stepped(p, dt));
    var t := PingPong(Stepped(p, dt));
    assert Advance(p, dt).position == Lerp(p.start, p.end, t);
  }

  lemma MoveToInSpan(p: PlatformState, progress: real)
    requires progress >= 0.0
    ensures InSpan(MoveTo(p, progress).position, p.start, p.end)
  {
    LerpInSpan(p.start, p.end, PingPong(progress));
  }

  /** GetVelocity: this tick's displacement scaled by a fixed 60 ticks per second. */
  function Velocity(p: PlatformState): Vec3 {
    Scale(p.delta, AssumedTickRate)
  }

  /** GetSurfaceY: the top of the box, whatever the queried x and z. */
  function SurfaceY(p: PlatformState, x: real, z: real): real {
    p.position.y + p.height * 0.5
  }

  /** The bottom of the box. */
  function BottomY(p: PlatformState): real {
    p.position.y - p.height * 0.5
  }

  /** IsWithinHorizontalBounds: the closed footprint widened by `margin` on every side. */
  predicate WithinHorizontalBounds(p: PlatformState, x: real, z: real, margin: real) {
    var halfWidth := p.width * 0.5 + margin;
    var halfDepth := p.depth * 0.5 + margin;
    x >= p.position.x - halfWidth && x <= p.position.x + halfWidth &&
    z >= p.position.z - halfDepth && z <= p.position.z + halfDepth
  }

  /** The two results of IsPlayerOnPlatform: the verdict and the out-parameter surfaceY. */
  datatype Standing = Standing(on: bool, surfaceY: real)

  /**
   * IsPlayerOnPlatform: the player stands on the platform iff its XZ lies in the
   * footprint widened by 0.05 and its bottom is within [-0.1, 0.15] of the
   * surface. The reported surface is 0 when the player is outside the footprint.
   */
  function IsPlayerOnPlatform(p: PlatformState, playerPos: Vec3, playerRadius: real): (r: Standing)
    ensures r.on <==>
      WithinHorizontalBounds(p, playerPos.x, playerPos.z, StandMargin) &&
      -SinkTolerance <= (playerPos.y - playerRadius) - SurfaceY(p, playerPos.x, playerPos.z) <= HoverTolerance
    ensures !WithinHorizontalBounds(p, playerPos.x, playerPos.z, StandMargin) ==> r.surfaceY == 0.0
    ensures WithinHorizontalBounds(p, playerPos.x, playerPos.z, StandMargin) ==> r.surfaceY == p.position.y + p.height / 2.0
  {
    if !WithinHorizontalBounds(p, playerPos.x, playerPos.z, StandMargin) then
      Standing(false, 0.0)
    else
      var surfaceY := SurfaceY(p, playerPos.x, playerPos.z);
      var playerBottom := playerPos.y - playerRadius;
      var distanceToSurface := playerBottom - surfaceY;
      Standing(distanceToSurface >= -SinkTolerance && distanceToSurface <= HoverTolerance, surfaceY)
  }

  /** The player's body at `toPos` overlaps the platform's vertical span (open intervals). */
  predicate OverlapsVertically(p: PlatformState, toPos: Vec3, playerRadius: real) {
    toPos.y - playerRadius < p.position.y + p.height * 0.5 && toPos.y + playerRadius > BottomY(p)
  }

  /**
   * BlocksMovement: never when moving up, never when `toPos` is outside the
   * zero-margin footprint, never when the player's bottom at `fromPos` is
   * above the surface; otherwise exactly when the body at `toPos` overlaps
   * the platform's vertical span.
   */
  function BlocksMovement(p: PlatformState, fromPos: Vec3, toPos: Vec3, playerRadius: real): (b: bool)
    ensures toPos.y > fromPos.y ==> !b
    ensures !WithinHorizontalBounds(p, toPos.x, toPos.z, 0.0) ==> !b
    ensures fromPos.y - playerRadius > p.position.y + p.height * 0.5 ==> !b
    ensures WithinHorizontalBounds(p, toPos.x, toPos.z, 0.0) && toPos.y <= fromPos.y &&
            fromPos.y - playerRadius <= p.position.y + p.height * 0.5 ==>
              (b <==> OverlapsVertically(p, toPos, playerRadius))
  {
    if !WithinHorizontalBounds(p, toPos.x, toPos.z, 0.0) then false
    else
      var surfaceY := SurfaceY(p, toPos.x, toPos.z);
      var platformBottom := BottomY(p);
      if toPos.y > fromPos.y then false
      else if fromPos.y - playerRadius > surfaceY then false
      else
        var playerBottom := toPos.y - playerRadius;
        var playerTop := toPos.y + playerRadius;
        playerBottom < surfaceY && playerTop > platformBottom
  }

  /** Adding whole periods to a non-negative progress does not change the remainder. */
  lemma {:induction false} CyclePeriodic(progress: real, k: nat)
    requires progress >= 0.0
    ensures Cycle(progress + 2.0 * (k as real)) == Cycle(progress)
  {
    if k > 0 {
      CyclePeriodic(progress, k - 1);
      assert progress + 2.0 * (k as real) >= 2.0;
      assert progress + 2.0 * (k as real) - 2.0 == progress + 2.0 * ((k - 1) as real);
    }
  }

  /** The ping-pong blend depends only on progress modulo 2. */
  lemma PingPongPeriodic(progress: real, k: nat)
    requires progress >= 0.0
    ensures PingPong(progress + 2.0 * (k as real)) == PingPong(progress)
  {
    CyclePeriodic(progress, k);
  }

  /** Progress 2k puts the blend at 0 (start); progress 2k+1 puts it at 1 (end). */
  lemma PingPongAtIntegers(k: nat)
    ensures PingPong(2.0 * (k as real)) == 0.0
    ensures PingPong(2.0 * (k as real) + 1.0) == 1.0
  {
    CyclePeriodic(0.0, k);
    CyclePeriodic(1.0, k);
    assert 0.0 + 2.0 * (k as real) == 2.0 * (k as real);
    assert 1.0 + 2.0 * (k as real) == 2.0 * (k as real) + 1.0;
  }

  /**
   * A Moving platform whose progress reaches an even integer stands exactly at
   * its start; an odd integer puts it exactly at its end.
   */
  lemma MovingEndpoints(p: PlatformState, dt: real, k: nat)
    requires p.kind == Moving
    ensures Stepped(p, dt) == 2.0 * (k as real) ==> Advance(p, dt).position == p.start
    ensures Stepped(p, dt) == 2.0 * (k as real) + 1.0 ==> Advance(p, dt).position == p.end
  {
    PingPongAtIntegers(k);
  }

  /** GetVelocity after an Update is 60 times the displacement the Update made, whatever dt was. */
  lemma VelocityIsScaledDisplacement(p: PlatformState, dt: real)
    ensures Velocity(Advance(p, dt)) == Scale(Sub(Advance(p, dt).position, p.position), AssumedTickRate)
    ensures p.kind != Moving ==> Velocity(Advance(p, dt)) == Zero
  {
    var q := Advance(p, dt);
    AdvanceChangesOnlyMotion(p, dt);
    assert q.delta == Sub(q.position, p.position);
  }

  /** A Platform object: the fields that Platform.Update changes in place. */
  class Platform {
    var position: Vec3
    var positionDelta: Vec3
    var width: real
    var height: real
    var depth: real
    var kind: Kind
    var startPosition: Vec3
    var endPosition: Vec3
    var moveSpeed: real
    var moveProgress: real
    var checkpointNumber: int

    function State(): PlatformState
      reads this
    {
      PlatformState(position, positionDelta, width, height, depth, kind,
                    startPosition, endPosition, moveSpeed, moveProgress, checkpointNumber)
    }

    /** The defaults of a new Platform: a static 2 x 0.3 x 2 box at the origin. */
    constructor ()
      ensures State() == PlatformState(Zero, Zero, 2.0, 0.3, 2.0, Static, Zero, Zero, 1.0, 0.0, 0)
    {
      position := Zero;
      positionDelta := Zero;
      width, height, depth := 2.0, 0.3, 2.0;
      kind := Static;
      startPosition, endPosition := Zero, Zero;
      moveSpeed := 1.0;
      moveProgress := 0.0;
      checkpointNumber := 0;
    }

    method SetMovementPath(start: Vec3, end: Vec3, speed: real)
      modifies this
      ensures State() == WithPath(old(State()), start, end, speed)
    {
      kind := Moving;
      startPosition := start;
      endPosition := end;
      position := start;
      moveSpeed := speed;
    }

    /** The CheckpointNumber setter: only the number changes. */
    method SetCheckpointNumber(n: int)
      modifies this
      ensures State() == old(State()).(checkpoint := n)
    {
      checkpointNumber := n;
    }

    method Update(deltaTime: real)
      modifies this
      ensures State() == Advance(old(State()), deltaTime)
    {
      var previousPosition := position;
      if kind == Moving {
        moveProgress := moveProgress + deltaTime * moveSpeed;
        var cycle := Cycle(moveProgress);
        var t := if cycle > 1.0 then 2.0 - cycle else cycle;
        position := Lerp(startPosition, endPosition, t);
        assert t == PingPong(moveProgress);
      }
      positionDelta := Sub(position, previousPosition);
      ghost var q := Advance(old(State()), deltaTime);
      assert q.progress == moveProgress;
      assert q.position == position;
      assert q.delta == positionDelta;
    }
  }
}
