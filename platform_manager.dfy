/**
 * The parkour course (Utility/PlatformManager.cs): the list of platforms,
 * the support query that also advances the checkpoint and latches the
 * finish, the wall query, and the course layout with its checkpoint map.
 */
module Course {
  import opened Wrappers
  import opened Vectors
  import opened Platforms

  /** The four results of CheckPlayerOnPlatform; `highestSurface` is None where the source returns float.MinValue. */
  datatype Support = Support(onGround: bool, highestSurface: Option<real>, velocity: Vec3, delta: Vec3)

  /** What CheckPlayerOnPlatform returns when no platform supports the player. */
  const NoSupport: Support := Support(false, None, Zero, Zero)

  /** The platform reports that the player stands on it. */
  predicate Supports(p: PlatformState, pos: Vec3, radius: real) {
    IsPlayerOnPlatform(p, pos, radius).on
  }

  /** The surface the platform reports for the player. */
  function SurfaceFor(p: PlatformState, pos: Vec3, radius: real): real {
    IsPlayerOnPlatform(p, pos, radius).surfaceY
  }

  /** `y` is strictly above the best surface so far; every surface is above "none yet". */
  predicate Above(y: real, best: Option<real>) {
    best.None? || y > best.value
  }

  /** What the loop reports once it settles on platform `p`. */
  function Report(p: PlatformState, pos: Vec3, radius: real): Support {
    Support(true, Some(SurfaceFor(p, pos, radius)), Velocity(p), p.delta)
  }

  /** One iteration of the support loop: a supporting platform strictly higher than the best so far replaces it. */
  function SupportStep(acc: Support, p: PlatformState, pos: Vec3, radius: real): Support {
    if Supports(p, pos, radius) && Above(SurfaceFor(p, pos, radius), acc.highestSurface) then Report(p, pos, radius)
    else acc
  }

  /** The support loop run over `states` in list order. */
  function SupportScan(states: seq<PlatformState>, pos: Vec3, radius: real): (r: Support)
    ensures r.onGround <==> r.highestSurface.Some?
    decreases |states|
  {
    if states == [] then NoSupport
    else SupportStep(SupportScan(states[..|states| - 1], pos, radius), states[|states| - 1], pos, radius)
  }

  /** One iteration's checkpoint update: a supporting CheckPoint platform with a higher number raises it. */
  function CheckpointStep(current: int, p: PlatformState, pos: Vec3, radius: real): int {
    if Supports(p, pos, radius) && p.kind == CheckPoint && p.checkpoint > current then p.checkpoint
    else current
  }

  /** The checkpoint after the support loop has run over `states`. */
  function CheckpointScan(current: int, states: seq<PlatformState>, pos: Vec3, radius: real): int
    decreases |states|
  {
    if states == [] then current
    else CheckpointStep(CheckpointScan(current, states[..|states| - 1], pos, radius), states[|states| - 1], pos, radius)
  }

  /** Some Final platform supports the player. */
  predicate ReachesFinal(states: seq<PlatformState>, pos: Vec3, radius: real) {
    exists i :: 0 <= i < |states| && Supports(states[i], pos, radius) && states[i].kind == Final
  }

  /** Some platform blocks the move from `from` to `to` (what CheckWallCollision reports). */
  predicate WallBlocks(states: seq<PlatformState>, from: Vec3, to: Vec3, radius: real) {
    exists i :: 0 <= i < |states| && BlocksMovement(states[i], from, to, radius)
  }

  /**
   * onGround holds iff some platform supports the player, and then a surface
   * is reported; with no support the scan returns (false, none, 0, 0).
   */
  lemma {:induction false} SupportScanOnGround(states: seq<PlatformState>, pos: Vec3, radius: real)
    ensures SupportScan(states, pos, radius).onGround <==> exists i :: 0 <= i < |states| && Supports(states[i], pos, radius)
    ensures SupportScan(states, pos, radius).onGround <==> SupportScan(states, pos, radius).highestSurface.Some?
    ensures !SupportScan(states, pos, radius).onGround ==> SupportScan(states, pos, radius) == NoSupport
    decreases |states|
  {
    if states != [] {
      var prefix := states[..|states| - 1];
      SupportScanOnGround(prefix, pos, radius);
      assert forall i :: 0 <= i < |prefix| ==> prefix[i] == states[i];
      if Supports(states[|states| - 1], pos, radius) {
        assert SupportScan(states, pos, radius).onGround;
      }
    }
  }

  /**
   * Platform `i` supports the player, no supporting platform has a higher
   * surface, and every supporting platform before it has a lower one.
   */
  predicate FirstHighest(states: seq<PlatformState>, i: int, pos: Vec3, radius: real) {
    0 <= i < |states| && Supports(states[i], pos, radius) &&
    (forall j :: 0 <= j < |states| && Supports(states[j], pos, radius) ==>
       SurfaceFor(states[j], pos, radius) <= SurfaceFor(states[i], pos, radius)) &&
    (forall j :: 0 <= j < i && Supports(states[j], pos, radius) ==>
       SurfaceFor(states[j], pos, radius) < SurfaceFor(states[i], pos, radius))
  }

  /**
   * When the player is supported, the reported surface, velocity and delta
   * all come from one platform: the first supporting platform whose surface
   * is the greatest.
   */
  lemma {:induction false} SupportScanHighest(states: seq<PlatformState>, pos: Vec3, radius: real)
    ensures SupportScan(states, pos, radius).onGround ==>
      exists i :: FirstHighest(states, i, pos, radius) && SupportScan(states, pos, radius) == Report(states[i], pos, radius)
    decreases |states|
  {
    if states != [] {
      var n := |states| - 1;
      var prefix := states[..n];
      var acc := SupportScan(prefix, pos, radius);
      SupportScanHighest(prefix, pos, radius);
      SupportScanOnGround(prefix, pos, radius);
      if Supports(states[n], pos, radius) && Above(SurfaceFor(states[n], pos, radius), acc.highestSurface) {
        if acc.onGround {
          var i :| FirstHighest(prefix, i, pos, radius) && acc == Report(prefix[i], pos, radius);
          HighestLast(states, prefix, i, pos, radius);
        } else {
          NoneBeforeLast(states, prefix, pos, radius);
        }
        assert FirstHighest(states, n, pos, radius);
      } else if SupportScan(states, pos, radius).onGround {
        var i :| FirstHighest(prefix, i, pos, radius) && acc == Report(prefix[i], pos, radius);
        HighestKept(states, prefix, i, pos, radius);
      }
    }
  }

  /** A last platform strictly above an earlier winner `w` is the first highest of the whole list. */
  lemma HighestLast(states: seq<PlatformState>, prefix: seq<PlatformState>, i: int, pos: Vec3, radius: real)
    requires states != [] && prefix == states[..|states| - 1]
    requires FirstHighest(prefix, i, pos, radius)
    requires Supports(states[|states| - 1], pos, radius)
    requires SurfaceFor(states[|states| - 1], pos, radius) > SurfaceFor(prefix[i], pos, radius)
    ensures FirstHighest(states, |states| - 1, pos, radius)
  {
    assert forall j :: 0 <= j < |prefix| ==> prefix[j] == states[j];
  }

  /** A supporting last platform with no supporting platform before it is the first highest. */
  lemma NoneBeforeLast(states: seq<PlatformState>, prefix: seq<PlatformState>, pos: Vec3, radius: real)
    requires states != [] && prefix == states[..|states| - 1]
    requires !exists i :: 0 <= i < |prefix| && Supports(prefix[i], pos, radius)
    requires Supports(states[|states| - 1], pos, radius)
    ensures FirstHighest(states, |states| - 1, pos, radius)
  {
    assert forall j :: 0 <= j < |prefix| ==> prefix[j] == states[j];
  }

  /** The first highest of all but the last platform stays so when the last one is not strictly higher. */
  lemma HighestKept(states: seq<PlatformState>, prefix: seq<PlatformState>, i: int, pos: Vec3, radius: real)
    requires states != [] && prefix == states[..|states| - 1]
    requires FirstHighest(prefix, i, pos, radius)
    requires Supports(states[|states| - 1], pos, radius) ==>
      SurfaceFor(states[|states| - 1], pos, radius) <= SurfaceFor(prefix[i], pos, radius)
    ensures FirstHighest(states, i, pos, radius)
  {
    assert forall j :: 0 <= j < |prefix| ==> prefix[j] == states[j];
  }

  /**
   * The checkpoint never decreases; it ends as the old value or as the
   * number of a supporting CheckPoint platform; and it is at least the number
   * of every supporting CheckPoint platform, the highest one or not.
   */
  lemma {:induction false} CheckpointScanMonotone(current: int, states: seq<PlatformState>, pos: Vec3, radius: real)
    ensures current <= CheckpointScan(current, states, pos, radius)
    ensures var c := CheckpointScan(current, states, pos, radius);
      c == current ||
      exists i :: 0 <= i < |states| && Supports(states[i], pos, radius) && states[i].kind == CheckPoint && c == states[i].checkpoint
    ensures forall i :: 0 <= i < |states| && Supports(states[i], pos, radius) && states[i].kind == CheckPoint ==>
      states[i].checkpoint <= CheckpointScan(current, states, pos, radius)
    decreases |states|
  {
    if states != [] {
      var n := |states| - 1;
      var prefix := states[..n];
      CheckpointScanMonotone(current, prefix, pos, radius);
      assert forall i :: 0 <= i < n ==> prefix[i] == states[i];
    }
  }

  /** The gameplay states of a list of platforms, in list order. */
  ghost function StatesOf(ps: seq<Platform>): (states: seq<PlatformState>)
    reads ps
    ensures |states| == |ps|
    ensures forall i :: 0 <= i < |ps| ==> states[i] == ps[i].State()
  {
    seq(|ps|, i reads ps requires 0 <= i < |ps| => ps[i].State())
  }

  lemma StatesOfAppend(ps: seq<Platform>, p: Platform)
    ensures StatesOf(ps + [p]) == StatesOf(ps) + [p.State()]
  {
    assert (ps + [p])[..|ps|] == ps;
  }

  /** No platform object occurs twice in the list. */
  ghost predicate Distinct(ps: seq<Platform>) {
    forall i, j :: 0 <= i < j < |ps| ==> ps[i] != ps[j]
  }

  /** Every CheckPoint platform's number has a respawn position. */
  predicate NumbersMapped(states: seq<PlatformState>, checkpoints: map<int, Vec3>) {
    forall i :: 0 <= i < |states| && states[i].kind == CheckPoint ==> states[i].checkpoint in checkpoints
  }

  /** Every platform advanced by one Update of `dt` seconds. */
  function AdvanceAll(states: seq<PlatformState>, dt: real): (r: seq<PlatformState>)
    ensures |r| == |states|
    ensures forall i :: 0 <= i < |states| ==> r[i] == Advance(states[i], dt)
  {
    seq(|states|, i requires 0 <= i < |states| => Advance(states[i], dt))
  }

  /** An Update keeps every platform's kind and checkpoint number, so the numbers stay mapped. */
  lemma AdvanceAllKeepsNumbers(states: seq<PlatformState>, dt: real, checkpoints: map<int, Vec3>)
    requires NumbersMapped(states, checkpoints)
    ensures NumbersMapped(AdvanceAll(states, dt), checkpoints)
  {
    forall i | 0 <= i < |states|
      ensures AdvanceAll(states, dt)[i].kind == states[i].kind
      ensures AdvanceAll(states, dt)[i].checkpoint == states[i].checkpoint
    {
      AdvanceChangesOnlyMotion(states[i], dt);
    }
  }

  /** A platform's footprint and size, as PlatformDims without the visual scale modifier. */
  datatype Dims = Dims(width: real, depth: real, height: real)

  const EasyDims: Dims := Dims(0.75, 0.75, 0.2)
  const HardDims: Dims := Dims(0.33, 0.33, 0.2)
  const CheckpointDims: Dims := Dims(1.0, 1.0, 0.2)

  /** The default platform the Platform constructor makes. */
  const DefaultPlatform: PlatformState := PlatformState(Zero, Zero, 2.0, 0.3, 2.0, Static, Zero, Zero, 1.0, 0.0, 0)

  /** A fresh platform of the given kind at `position` with the given size. */
  function Placed(position: Vec3, d: Dims, kind: Kind): PlatformState {
    DefaultPlatform.(position := position, width := d.width, height := d.height, depth := d.depth, kind := kind)
  }

  /** A fresh moving platform: sized, then given its path. */
  function MovingPlaced(start: Vec3, end: Vec3, d: Dims, speed: real): PlatformState {
    WithPath(DefaultPlatform.(width := d.width, height := d.height, depth := d.depth), start, end, speed)
  }

  /** Course platforms 1 to 4: the start, the two steps after it and the side-to-side moving platform. */
  function FirstLeg(): seq<PlatformState> {
    [Placed(Vec3(0.0, 0.5, 4.0), EasyDims, Static)] +
    [Placed(Vec3(-2.0, 1.0, 3.0), EasyDims, Static)] +
    [Placed(Vec3(-4.0, 1.6, 1.5), EasyDims, Static)] +
    [MovingPlaced(Vec3(-5.0, 2.0, 0.0), Vec3(-1.0, 2.0, 0.0), EasyDims, 0.1)]
  }

  /** Course platforms 5 to 7: the first checkpoint and the two moving platforms after it. */
  function SecondLeg(): seq<PlatformState> {
    [Placed(Vec3(-1.0, 2.5, 0.5), CheckpointDims, CheckPoint)] +
    [MovingPlaced(Vec3(-1.0, 3.0, -0.5), Vec3(-1.0, 3.0, -3.0), EasyDims, 0.1)] +
    [MovingPlaced(Vec3(-1.0, 3.4, -3.0), Vec3(-5.0, 3.4, -3.0), EasyDims, 0.1)]
  }

  /** Course platforms 8 to 10: two steps and the second checkpoint. */
  function ThirdLeg(): seq<PlatformState> {
    [Placed(Vec3(-5.0, 4.0, -2.5), EasyDims, Static)] +
    [Placed(Vec3(-5.0, 4.6, -1.5), EasyDims, Static)] +
    [Placed(Vec3(-5.0, 5.2, -0.5), EasyDims, CheckPoint)]
  }

  /** Course platforms 11 to 14: the narrow final steps, the last moving platform and the goal. */
  function FinalLeg(): seq<PlatformState> {
    [Placed(Vec3(-3.0, 6.0, -1.5), HardDims, Static)] +
    [Placed(Vec3(0.0, 6.8, 0.0), HardDims, Static)] +
    [MovingPlaced(Vec3(-3.0, 6.4, 1.0), Vec3(1.0, 6.8, -3.0), HardDims, 0.3)] +
    [Placed(Vec3(1.0, 7.2, 1.0), EasyDims, Final)]
  }

  /** The fourteen platforms SetupParkourCourse adds, in order, before they are numbered. */
  function CourseLayout(): seq<PlatformState> {
    FirstLeg() + SecondLeg() + ThirdLeg() + FinalLeg()
  }

  /** The offset from a checkpoint platform to its respawn position. */
  const RespawnLift: Vec3 := Vec3(0.0, 1.0, 0.0)

  /** How many CheckPoint platforms `states` holds. */
  function CountCheckpoints(states: seq<PlatformState>): nat
    decreases |states|
  {
    if states == [] then 0
    else CountCheckpoints(states[..|states| - 1]) + (if states[|states| - 1].kind == CheckPoint then 1 else 0)
  }

  /** Platform `i` after the numbering loop: a CheckPoint gets one more than the CheckPoints before it. */
  function NumberedAt(states: seq<PlatformState>, i: nat): PlatformState
    requires i < |states|
  {
    if states[i].kind == CheckPoint then states[i].(checkpoint := CountCheckpoints(states[..i]) + 1)
    else states[i]
  }

  /** The platforms after the numbering loop. */
  function Numbered(states: seq<PlatformState>): (r: seq<PlatformState>)
    ensures |r| == |states|
    ensures forall i :: 0 <= i < |states| ==> r[i] == NumberedAt(states, i)
  {
    seq(|states|, i requires 0 <= i < |states| => NumberedAt(states, i))
  }

  /** The map entries the numbering loop writes: number k to the k-th CheckPoint's position lifted by 1. */
  function Respawns(states: seq<PlatformState>): map<int, Vec3>
    decreases |states|
  {
    if states == [] then map[]
    else
      var n := |states| - 1;
      var m := Respawns(states[..n]);
      if states[n].kind == CheckPoint then m[CountCheckpoints(states) := Add(states[n].position, RespawnLift)] else m
  }

  /** The number of CheckPoints in a prefix never exceeds the number in the whole list. */
  lemma {:induction false} CountCheckpointsPrefix(states: seq<PlatformState>, i: nat)
    requires i <= |states|
    ensures CountCheckpoints(states[..i]) <= CountCheckpoints(states)
    decreases |states| - i
  {
    if i < |states| {
      CountCheckpointsPrefix(states, i + 1);
      assert states[..i + 1][..i] == states[..i];
    } else {
      assert states[..i] == states;
    }
  }

  /**
   * The numbering gives the CheckPoint platforms 1, 2, ..., n in list order;
   * the other platforms keep their number.
   */
  lemma NumberingInOrder(states: seq<PlatformState>)
    ensures forall i :: 0 <= i < |states| && states[i].kind == CheckPoint ==>
      1 <= Numbered(states)[i].checkpoint <= CountCheckpoints(states)
    ensures forall i, j :: 0 <= i < j < |states| && states[i].kind == CheckPoint && states[j].kind == CheckPoint ==>
      Numbered(states)[i].checkpoint < Numbered(states)[j].checkpoint
    ensures forall i :: 0 <= i < |states| && states[i].kind != CheckPoint ==> Numbered(states)[i] == states[i]
  {
    forall i | 0 <= i < |states| && states[i].kind == CheckPoint
      ensures 1 <= Numbered(states)[i].checkpoint <= CountCheckpoints(states)
    {
      CountCheckpointsPrefix(states, i + 1);
      assert states[..i + 1][..i] == states[..i];
    }
    forall i, j | 0 <= i < j < |states| && states[i].kind == CheckPoint && states[j].kind == CheckPoint
      ensures Numbered(states)[i].checkpoint < Numbered(states)[j].checkpoint
    {
      CountCheckpointsPrefix(states[..j], i + 1);
      assert states[..j][..i + 1] == states[..i + 1];
      assert states[..i + 1][..i] == states[..i];
    }
  }

  /**
   * The respawn map has exactly the keys 1..n, and the key a CheckPoint
   * platform is numbered with holds that platform's position lifted by 1.
   */
  lemma {:induction false} RespawnsMatchNumbers(states: seq<PlatformState>)
    ensures forall k :: k in Respawns(states) <==> 1 <= k <= CountCheckpoints(states)
    ensures forall i :: 0 <= i < |states| && states[i].kind == CheckPoint ==>
      var k := Numbered(states)[i].checkpoint;
      k in Respawns(states) && Respawns(states)[k] == Add(states[i].position, RespawnLift)
    decreases |states|
  {
    if states != [] {
      var n := |states| - 1;
      var prefix := states[..n];
      RespawnsMatchNumbers(prefix);
      assert states[..n] == prefix;
      forall i | 0 <= i < n && states[i].kind == CheckPoint
        ensures var k := Numbered(states)[i].checkpoint;
          k in Respawns(states) && Respawns(states)[k] == Add(states[i].position, RespawnLift)
      {
        assert prefix[i] == states[i];
        assert prefix[..i] == states[..i];
        assert Numbered(prefix)[i] == Numbered(states)[i];
        CountCheckpointsPrefix(prefix, i + 1);
        assert prefix[..i + 1][..i] == prefix[..i];
      }
    }
  }

  /** One more platform in the prefix: the count and the respawn map grow only for a CheckPoint. */
  lemma NumberingStep(states: seq<PlatformState>, i: nat)
    requires i < |states|
    ensures states[i].kind != CheckPoint ==>
      CountCheckpoints(states[..i + 1]) == CountCheckpoints(states[..i]) &&
      Respawns(states[..i + 1]) == Respawns(states[..i])
    ensures states[i].kind == CheckPoint ==>
      CountCheckpoints(states[..i + 1]) == CountCheckpoints(states[..i]) + 1 &&
      Respawns(states[..i + 1]) == Respawns(states[..i])[CountCheckpoints(states[..i]) + 1 := Add(states[i].position, RespawnLift)]
  {
    assert states[..i + 1][..i] == states[..i];
  }

  /** After the numbering, every CheckPoint's number is a key of the extended respawn map. */
  lemma NumberingMapped(states: seq<PlatformState>, earlier: map<int, Vec3>)
    ensures NumbersMapped(Numbered(states), earlier + Respawns(states))
  {
    RespawnsMatchNumbers(states);
  }

  /** Appending platforms that are not CheckPoints adds no checkpoint and no respawn entry. */
  lemma {:induction false} AppendPlain(a: seq<PlatformState>, b: seq<PlatformState>)
    requires forall i :: 0 <= i < |b| ==> b[i].kind != CheckPoint
    ensures CountCheckpoints(a + b) == CountCheckpoints(a)
    ensures Respawns(a + b) == Respawns(a)
    decreases |b|
  {
    if b == [] {
      assert a + b == a;
    } else {
      var m := |b| - 1;
      AppendPlain(a, b[..m]);
      assert (a + b)[..|a + b| - 1] == a + b[..m];
    }
  }

  /** The shipped course holds two CheckPoints, numbered 1 and 2, with these respawn positions. */
  lemma CourseCheckpoints()
    ensures |CourseLayout()| == 14
    ensures CountCheckpoints(CourseLayout()) == 2
    ensures Numbered(CourseLayout())[4].checkpoint == 1 && Numbered(CourseLayout())[9].checkpoint == 2
    ensures Respawns(CourseLayout()) == map[1 := Vec3(-1.0, 3.5, 0.5), 2 := Vec3(-5.0, 6.2, -0.5)]
  {
    var s := CourseLayout();
    AppendPlain([], s[..4]);
    assert [] + s[..4] == s[..4];
    assert s[..5][..4] == s[..4];
    AppendPlain(s[..5], s[5..9]);
    assert s[..5] + s[5..9] == s[..9];
    assert s[..10][..9] == s[..9];
    AppendPlain(s[..10], s[10..]);
    assert s[..10] + s[10..] == s;
  }

  /** A new Platform set up as the object initializer of AddStatic/AddCheckpoint/AddFinalPlatform does. */
  method NewPlaced(position: Vec3, d: Dims, kind: Kind) returns (p: Platform)
    ensures fresh(p) && p.State() == Placed(position, d, kind)
  {
    p := new Platform();
    p.position := position;
    p.width, p.height, p.depth := d.width, d.height, d.depth;
    p.kind := kind;
  }

  /** A new Platform set up as AddMovingPlatform does: sized, then given its path. */
  method NewMoving(start: Vec3, end: Vec3, d: Dims, speed: real) returns (p: Platform)
    ensures fresh(p) && p.State() == MovingPlaced(start, end, d, speed)
  {
    p := new Platform();
    p.width, p.height, p.depth := d.width, d.height, d.depth;
    p.SetMovementPath(start, end, speed);
  }

  class PlatformManager {
    var platforms: seq<Platform>
    var currentCheckpoint: int
    var isGameComplete: bool
    var checkpointMap: map<int, Vec3>
    /** The platform objects this manager created since its list was last cleared. */
    ghost var Repr: set<Platform>

    /** Every listed platform is one this manager created. */
    ghost predicate Owned()
      reads this
    {
      forall i :: 0 <= i < |platforms| ==> platforms[i] in Repr
    }

    /**
     * The manager's invariant: each platform object occurs once, the start
     * position (key 0) and the current checkpoint are mapped, and so is
     * every CheckPoint platform's number.
     */
    ghost predicate Valid()
      reads this, platforms
    {
      Distinct(platforms) &&
      0 in checkpointMap && currentCheckpoint in checkpointMap &&
      NumbersMapped(StatesOf(platforms), checkpointMap)
    }

    constructor (startPos: Vec3)
      ensures Valid()
      ensures platforms == [] && currentCheckpoint == 0 && !isGameComplete
      ensures checkpointMap == map[0 := startPos]
    {
      platforms := [];
      currentCheckpoint := 0;
      isGameComplete := false;
      checkpointMap := map[0 := startPos];
      Repr := {};
    }

    /** Advances every platform once, in list order. */
    method Update(deltaTime: real)
      requires Valid()
      modifies platforms
      ensures Valid()
      ensures StatesOf(platforms) == AdvanceAll(old(StatesOf(platforms)), deltaTime)
    {
      ghost var before := StatesOf(platforms);
      var i := 0;
      while i < |platforms|
        invariant 0 <= i <= |platforms|
        invariant forall k :: 0 <= k < i ==> platforms[k].State() == Advance(before[k], deltaTime)
        invariant forall k :: i <= k < |platforms| ==> platforms[k].State() == before[k]
      {
        platforms[i].Update(deltaTime);
        i := i + 1;
      }
      assert StatesOf(platforms) == AdvanceAll(before, deltaTime);
      AdvanceAllKeepsNumbers(before, deltaTime, checkpointMap);
    }

    /**
     * The support query. Its result is the support scan of the platforms;
     * as a side effect every supporting CheckPoint platform with a higher
     * number raises the current checkpoint, and any supporting Final
     * platform sets the completion latch.
     */
    method CheckPlayerOnPlatform(playerPos: Vec3, playerRadius: real)
      returns (onGround: bool, highestSurface: Option<real>, platformVelocity: Vec3, platformDelta: Vec3)
      requires Valid()
      modifies this
      ensures Valid()
      ensures platforms == old(platforms) && checkpointMap == old(checkpointMap)
      ensures Support(onGround, highestSurface, platformVelocity, platformDelta) ==
        SupportScan(StatesOf(platforms), playerPos, playerRadius)
      ensures currentCheckpoint == CheckpointScan(old(currentCheckpoint), StatesOf(platforms), playerPos, playerRadius)
      ensures isGameComplete == (old(isGameComplete) || ReachesFinal(StatesOf(platforms), playerPos, playerRadius))
    {
      ghost var states := StatesOf(platforms);
      onGround, highestSurface, platformVelocity, platformDelta := false, None, Zero, Zero;
      var i := 0;
      while i < |platforms|
        invariant 0 <= i <= |platforms|
        invariant platforms == old(platforms) && checkpointMap == old(checkpointMap)
        invariant Support(onGround, highestSurface, platformVelocity, platformDelta) ==
          SupportScan(states[..i], playerPos, playerRadius)
        invariant currentCheckpoint == CheckpointScan(old(currentCheckpoint), states[..i], playerPos, playerRadius)
        invariant isGameComplete == (old(isGameComplete) ||
          exists k :: 0 <= k < i && Supports(states[k], playerPos, playerRadius) && states[k].kind == Final)
      {
        var p := platforms[i];
        var standing := IsPlayerOnPlatform(p.State(), playerPos, playerRadius);
        assert states[..i + 1][..i] == states[..i];
        if standing.on {
          if Above(standing.surfaceY, highestSurface) {
            highestSurface := Some(standing.surfaceY);
            onGround := true;
            platformVelocity := Velocity(p.State());
            platformDelta := p.positionDelta;
          }
          if p.kind == CheckPoint && p.checkpointNumber > currentCheckpoint {
            currentCheckpoint := p.checkpointNumber;
          } else if p.kind == Final {
            isGameComplete := true;
          }
        }
        i := i + 1;
      }
      assert states[..i] == states;
      CheckpointScanMonotone(old(currentCheckpoint), states, playerPos, playerRadius);
    }

    /** The respawn position of the current checkpoint; always defined under the invariant. */
    function CurrentCheckpointPosition(): (v: Vec3)
      requires Valid()
      reads this, platforms
      ensures currentCheckpoint in checkpointMap && v == checkpointMap[currentCheckpoint]
    {
      checkpointMap[currentCheckpoint]
    }

    function CheckGameComplete(): bool
      reads this
    {
      isGameComplete
    }

    /** Clears the completion latch and nothing else. */
    method SetGameRestart()
      modifies this
      ensures !isGameComplete
      ensures platforms == old(platforms) && currentCheckpoint == old(currentCheckpoint)
      ensures checkpointMap == old(checkpointMap)
    {
      isGameComplete := false;
    }

    /** True iff some platform blocks the sideways move from `fromPos` to `toPos`. */
    method CheckWallCollision(fromPos: Vec3, toPos: Vec3, playerRadius: real) returns (blocked: bool)
      ensures blocked == WallBlocks(StatesOf(platforms), fromPos, toPos, playerRadius)
    {
      var i := 0;
      while i < |platforms|
        invariant 0 <= i <= |platforms|
        invariant forall k :: 0 <= k < i ==> !BlocksMovement(platforms[k].State(), fromPos, toPos, playerRadius)
      {
        if BlocksMovement(platforms[i].State(), fromPos, toPos, playerRadius) {
          return true;
        }
        i := i + 1;
      }
      return false;
    }

    /** Empties the platform list; the checkpoint, the latch and the map are kept. */
    method ClearPlatforms()
      modifies this
      ensures platforms == [] && Repr == {}
      ensures currentCheckpoint == old(currentCheckpoint) && isGameComplete == old(isGameComplete)
      ensures checkpointMap == old(checkpointMap)
    {
      platforms := [];
      Repr := {};
    }

    /** Appends a new platform of the given kind at `position`. */
    method AddPlaced(position: Vec3, d: Dims, kind: Kind)
      requires Distinct(platforms) && Owned()
      modifies this
      ensures Distinct(platforms) && Owned()
      ensures fresh(Repr - old(Repr))
      ensures StatesOf(platforms) == old(StatesOf(platforms)) + [Placed(position, d, kind)]
      ensures currentCheckpoint == old(currentCheckpoint) && isGameComplete == old(isGameComplete)
      ensures checkpointMap == old(checkpointMap)
    {
      ghost var before := StatesOf(platforms);
      var p := NewPlaced(position, d, kind);
      assert StatesOf(platforms) == before;
      StatesOfAppend(platforms, p);
      assert (platforms + [p])[..|platforms|] == platforms;
      platforms := platforms + [p];
      Repr := Repr + {p};
    }

    /** Appends a new moving platform on the path from `start` to `end`. */
    method AddMovingPlatform(start: Vec3, end: Vec3, d: Dims, speed: real)
      requires Distinct(platforms) && Owned()
      modifies this
      ensures Distinct(platforms) && Owned()
      ensures fresh(Repr - old(Repr))
      ensures StatesOf(platforms) == old(StatesOf(platforms)) + [MovingPlaced(start, end, d, speed)]
      ensures currentCheckpoint == old(currentCheckpoint) && isGameComplete == old(isGameComplete)
      ensures checkpointMap == old(checkpointMap)
    {
      ghost var before := StatesOf(platforms);
      var p := NewMoving(start, end, d, speed);
      assert StatesOf(platforms) == before;
      StatesOfAppend(platforms, p);
      assert (platforms + [p])[..|platforms|] == platforms;
      platforms := platforms + [p];
      Repr := Repr + {p};
    }

    /**
     * Rebuilds the course: the list is cleared, the fourteen platforms are
     * added, and the CheckPoint platforms are numbered 1..n in list order
     * with their respawn positions written into the map. The current
     * checkpoint and the earlier map entries are kept.
     */
    method SetupParkourCourse()
      requires Valid()
      modifies this
      ensures Valid()
      ensures StatesOf(platforms) == Numbered(CourseLayout())
      ensures checkpointMap == old(checkpointMap) + Respawns(CourseLayout())
      ensures currentCheckpoint == old(currentCheckpoint) && isGameComplete == old(isGameComplete)
    {
      ClearPlatforms();
      AddFirstLeg();
      AddSecondLeg();
      AddThirdLeg();
      AddFinalLeg();
      ghost var layout := StatesOf(platforms);
      assert [] + FirstLeg() == FirstLeg();
      assert layout == CourseLayout();
      NumberCheckpoints(layout);
      assert StatesOf(platforms) == Numbered(layout);
      NumberingMapped(layout, old(checkpointMap));
    }

    /** Adds the start, the two steps after it and the side-to-side moving platform. */
    method AddFirstLeg()
      requires Distinct(platforms) && Owned()
      modifies this
      ensures Distinct(platforms) && Owned()
      ensures fresh(Repr - old(Repr))
      ensures StatesOf(platforms) == old(StatesOf(platforms)) + FirstLeg()
      ensures currentCheckpoint == old(currentCheckpoint) && isGameComplete == old(isGameComplete)
      ensures checkpointMap == old(checkpointMap)
    {
      ghost var before := StatesOf(platforms);
      AddPlaced(Vec3(0.0, 0.5, 4.0), EasyDims, Static);
      ghost var added := [Placed(Vec3(0.0, 0.5, 4.0), EasyDims, Static)];
      assert StatesOf(platforms) == before + added;
      AddPlaced(Vec3(-2.0, 1.0, 3.0), EasyDims, Static);
      assert before + added + [Placed(Vec3(-2.0, 1.0, 3.0), EasyDims, Static)] == before + (added + [Placed(Vec3(-2.0, 1.0, 3.0), EasyDims, Static)]);
      added := added + [Placed(Vec3(-2.0, 1.0, 3.0), EasyDims, Static)];
      assert StatesOf(platforms) == before + added;
      AddPlaced(Vec3(-4.0, 1.6, 1.5), EasyDims, Static);
      assert before + added + [Placed(Vec3(-4.0, 1.6, 1.5), EasyDims, Static)] == before + (added + [Placed(Vec3(-4.0, 1.6, 1.5), EasyDims, Static)]);
      added := added + [Placed(Vec3(-4.0, 1.6, 1.5), EasyDims, Static)];
      assert StatesOf(platforms) == before + added;
      AddMovingPlatform(Vec3(-5.0, 2.0, 0.0), Vec3(-1.0, 2.0, 0.0), EasyDims, 0.1);
      assert before + added + [MovingPlaced(Vec3(-5.0, 2.0, 0.0), Vec3(-1.0, 2.0, 0.0), EasyDims, 0.1)] == before + (added + [MovingPlaced(Vec3(-5.0, 2.0, 0.0), Vec3(-1.0, 2.0, 0.0), EasyDims, 0.1)]);
      added := added + [MovingPlaced(Vec3(-5.0, 2.0, 0.0), Vec3(-1.0, 2.0, 0.0), EasyDims, 0.1)];
      assert StatesOf(platforms) == before + added;
    }

    /** Adds the first checkpoint and the two moving platforms after it. */
    method AddSecondLeg()
      requires Distinct(platforms) && Owned()
      modifies this
      ensures Distinct(platforms) && Owned()
      ensures fresh(Repr - old(Repr))
      ensures StatesOf(platforms) == old(StatesOf(platforms)) + SecondLeg()
      ensures currentCheckpoint == old(currentCheckpoint) && isGameComplete == old(isGameComplete)
      ensures checkpointMap == old(checkpointMap)
    {
      ghost var before := StatesOf(platforms);
      AddPlaced(Vec3(-1.0, 2.5, 0.5), CheckpointDims, CheckPoint);
      ghost var added := [Placed(Vec3(-1.0, 2.5, 0.5), CheckpointDims, CheckPoint)];
      assert StatesOf(platforms) == before + added;
      AddMovingPlatform(Vec3(-1.0, 3.0, -0.5), Vec3(-1.0, 3.0, -3.0), EasyDims, 0.1);
      assert before + added + [MovingPlaced(Vec3(-1.0, 3.0, -0.5), Vec3(-1.0, 3.0, -3.0), EasyDims, 0.1)] == before + (added + [MovingPlaced(Vec3(-1.0, 3.0, -0.5), Vec3(-1.0, 3.0, -3.0), EasyDims, 0.1)]);
      added := added + [MovingPlaced(Vec3(-1.0, 3.0, -0.5), Vec3(-1.0, 3.0, -3.0), EasyDims, 0.1)];
      assert StatesOf(platforms) == before + added;
      AddMovingPlatform(Vec3(-1.0, 3.4, -3.0), Vec3(-5.0, 3.4, -3.0), EasyDims, 0.1);
      assert before + added + [MovingPlaced(Vec3(-1.0, 3.4, -3.0), Vec3(-5.0, 3.4, -3.0), EasyDims, 0.1)] == before + (added + [MovingPlaced(Vec3(-1.0, 3.4, -3.0), Vec3(-5.0, 3.4, -3.0), EasyDims, 0.1)]);
      added := added + [MovingPlaced(Vec3(-1.0, 3.4, -3.0), Vec3(-5.0, 3.4, -3.0), EasyDims, 0.1)];
      assert StatesOf(platforms) == before + added;
    }

    /** Adds two steps and the second checkpoint. */
    method AddThirdLeg()
      requires Distinct(platforms) && Owned()
      modifies this
      ensures Distinct(platforms) && Owned()
      ensures fresh(Repr - old(Repr))
      ensures StatesOf(platforms) == old(StatesOf(platforms)) + ThirdLeg()
      ensures currentCheckpoint == old(currentCheckpoint) && isGameComplete == old(isGameComplete)
      ensures checkpointMap == old(checkpointMap)
    {
      ghost var before := StatesOf(platforms);
      AddPlaced(Vec3(-5.0, 4.0, -2.5), EasyDims, Static);
      ghost var added := [Placed(Vec3(-5.0, 4.0, -2.5), EasyDims, Static)];
      assert StatesOf(platforms) == before + added;
      AddPlaced(Vec3(-5.0, 4.6, -1.5), EasyDims, Static);
      assert before + added + [Placed(Vec3(-5.0, 4.6, -1.5), EasyDims, Static)] == before + (added + [Placed(Vec3(-5.0, 4.6, -1.5), EasyDims, Static)]);
      added := added + [Placed(Vec3(-5.0, 4.6, -1.5), EasyDims, Static)];
      assert StatesOf(platforms) == before + added;
      AddPlaced(Vec3(-5.0, 5.2, -0.5), EasyDims, CheckPoint);
      assert before + added + [Placed(Vec3(-5.0, 5.2, -0.5), EasyDims, CheckPoint)] == before + (added + [Placed(Vec3(-5.0, 5.2, -0.5), EasyDims, CheckPoint)]);
      added := added + [Placed(Vec3(-5.0, 5.2, -0.5), EasyDims, CheckPoint)];
      assert StatesOf(platforms) == before + added;
    }

    /** Adds the narrow final steps, the last moving platform and the goal. */
    method AddFinalLeg()
      requires Distinct(platforms) && Owned()
      modifies this
      ensures Distinct(platforms) && Owned()
      ensures fresh(Repr - old(Repr))
      ensures StatesOf(platforms) == old(StatesOf(platforms)) + FinalLeg()
      ensures currentCheckpoint == old(currentCheckpoint) && isGameComplete == old(isGameComplete)
      ensures checkpointMap == old(checkpointMap)
    {
      ghost var before := StatesOf(platforms);
      AddPlaced(Vec3(-3.0, 6.0, -1.5), HardDims, Static);
      ghost var added := [Placed(Vec3(-3.0, 6.0, -1.5), HardDims, Static)];
      assert StatesOf(platforms) == before + added;
      AddPlaced(Vec3(0.0, 6.8, 0.0), HardDims, Static);
      assert before + added + [Placed(Vec3(0.0, 6.8, 0.0), HardDims, Static)] == before + (added + [Placed(Vec3(0.0, 6.8, 0.0), HardDims, Static)]);
      added := added + [Placed(Vec3(0.0, 6.8, 0.0), HardDims, Static)];
      assert StatesOf(platforms) == before + added;
      AddMovingPlatform(Vec3(-3.0, 6.4, 1.0), Vec3(1.0, 6.8, -3.0), HardDims, 0.3);
      assert before + added + [MovingPlaced(Vec3(-3.0, 6.4, 1.0), Vec3(1.0, 6.8, -3.0), HardDims, 0.3)] == before + (added + [MovingPlaced(Vec3(-3.0, 6.4, 1.0), Vec3(1.0, 6.8, -3.0), HardDims, 0.3)]);
      added := added + [MovingPlaced(Vec3(-3.0, 6.4, 1.0), Vec3(1.0, 6.8, -3.0), HardDims, 0.3)];
      assert StatesOf(platforms) == before + added;
      AddPlaced(Vec3(1.0, 7.2, 1.0), EasyDims, Final);
      assert before + added + [Placed(Vec3(1.0, 7.2, 1.0), EasyDims, Final)] == before + (added + [Placed(Vec3(1.0, 7.2, 1.0), EasyDims, Final)]);
      added := added + [Placed(Vec3(1.0, 7.2, 1.0), EasyDims, Final)];
      assert StatesOf(platforms) == before + added;
    }

    /** Gives the platform at index `i` the checkpoint number `n`; no other platform changes. */
    method SetNumberAt(i: int, n: int)
      requires 0 <= i < |platforms| && Distinct(platforms)
      modifies platforms[i]
      ensures platforms[i].State() == old(platforms[i].State()).(checkpoint := n)
      ensures forall k :: 0 <= k < |platforms| && k != i ==> platforms[k].State() == old(platforms[k].State())
    {
      platforms[i].SetCheckpointNumber(n);
    }

    /** The numbering loop of SetupParkourCourse over the platforms now in the list. */
    method NumberCheckpoints(ghost layout: seq<PlatformState>)
      requires Distinct(platforms) && Owned() && |layout| == |platforms|
      requires forall k :: 0 <= k < |platforms| ==> platforms[k].State() == layout[k]
      modifies this, Repr
      ensures platforms == old(platforms)
      ensures forall k :: 0 <= k < |platforms| ==> platforms[k].State() == NumberedAt(layout, k)
      ensures checkpointMap == old(checkpointMap) + Respawns(layout)
      ensures currentCheckpoint == old(currentCheckpoint) && isGameComplete == old(isGameComplete)
    {
      var checkpointCount := 0;
      var i := 0;
      while i < |platforms|
        invariant 0 <= i <= |platforms|
        invariant platforms == old(platforms)
        invariant currentCheckpoint == old(currentCheckpoint) && isGameComplete == old(isGameComplete)
        invariant checkpointCount == CountCheckpoints(layout[..i])
        invariant checkpointMap == old(checkpointMap) + Respawns(layout[..i])
        invariant forall k :: 0 <= k < |platforms| ==>
          platforms[k].State() == if k < i then NumberedAt(layout, k) else layout[k]
      {
        var p := platforms[i];
        NumberingStep(layout, i);
        if p.kind == CheckPoint {
          checkpointCount := checkpointCount + 1;
          var respawn := Add(p.position, RespawnLift);
          assert respawn == Add(layout[i].position, RespawnLift);
          SetNumberAt(i, checkpointCount);
          assert (old(checkpointMap) + Respawns(layout[..i]))[checkpointCount := respawn] ==
            old(checkpointMap) + Respawns(layout[..i])[checkpointCount := respawn];
          checkpointMap := checkpointMap[checkpointCount := respawn];
        }
        i := i + 1;
      }
      assert layout[..i] == layout;
    }
  }
}
