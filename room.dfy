/**
 * The room the course stands in: a floor and four walls given as a table of
 * vertices (eight numbers each: position, normal, texture coordinate). The
 * room's horizontal bounds and wall height are derived from that table, and
 * positions of the player and the camera are tested and clamped against them.
 */
module Rooms {
  import opened Wrappers
  import opened Vectors

  /** Numbers per vertex in the table: position (3), normal (3), texture coordinate (2). */
  const Stride: nat := 8

  /** Vertex `k` of the room: position, normal and texture coordinate. */
  function Corner(k: nat): (row: seq<real>)
    ensures |row| == Stride
  {
    match k
      case 0 => [-10.0, 0.0, 10.0, 0.0, 1.0, 0.0, 0.0, 0.0]
      case 1 => [10.0, 0.0, 10.0, 0.0, 1.0, 0.0, 2.0, 0.0]
      case 2 => [10.0, 0.0, -10.0, 0.0, 1.0, 0.0, 2.0, 2.0]
      case 3 => [-10.0, 0.0, -10.0, 0.0, 1.0, 0.0, 0.0, 2.0]
      case 4 => [-10.0, 0.0, 10.0, 1.0, 0.0, 0.0, 0.0, 0.0]
      case 5 => [-10.0, 0.0, -10.0, 1.0, 0.0, 0.0, 2.0, 0.0]
      case 6 => [-10.0, 8.0, -10.0, 1.0, 0.0, 0.0, 2.0, 1.0]
      case 7 => [-10.0, 8.0, 10.0, 1.0, 0.0, 0.0, 0.0, 1.0]
      case 8 => [10.0, 0.0, 10.0, -1.0, 0.0, 0.0, 0.0, 0.0]
      case 9 => [10.0, 8.0, 10.0, -1.0, 0.0, 0.0, 0.0, 1.0]
      case 10 => [10.0, 8.0, -10.0, -1.0, 0.0, 0.0, 2.0, 1.0]
      case 11 => [10.0, 0.0, -10.0, -1.0, 0.0, 0.0, 2.0, 0.0]
      case 12 => [-10.0, 0.0, 10.0, 0.0, 0.0, -1.0, 0.0, 0.0]
      case 13 => [-10.0, 8.0, 10.0, 0.0, 0.0, -1.0, 0.0, 1.0]
      case 14 => [10.0, 8.0, 10.0, 0.0, 0.0, -1.0, 2.0, 1.0]
      case 15 => [10.0, 0.0, 10.0, 0.0, 0.0, -1.0, 2.0, 0.0]
      case 16 => [10.0, 0.0, -10.0, 0.0, 0.0, 1.0, 0.0, 0.0]
      case 17 => [10.0, 8.0, -10.0, 0.0, 0.0, 1.0, 0.0, 1.0]
      case 18 => [-10.0, 8.0, -10.0, 0.0, 0.0, 1.0, 2.0, 1.0]
      case _ => [-10.0, 0.0, -10.0, 0.0, 0.0, 1.0, 2.0, 0.0]
  }

  /** Vertices in the table: four for the floor, four for each of the four walls. */
  const CornerCount: nat := 20

  /**
   * The room's vertex table, flattened eight numbers per vertex: the floor at
   * y = 0, then the walls at x = -10, x = 10, z = 10 and z = -10, 8 high.
   */
  const RoomVertices: seq<real> := seq(CornerCount * Stride, i requires 0 <= i < CornerCount * Stride => Corner(i / Stride)[i % Stride])

  /** The derived bounds: extreme x and z of all vertices and the greatest y (the top of the walls). */
  datatype Box = Box(minX: real, maxX: real, minZ: real, maxZ: real, wallTop: real)

  /** The bounds before any vertex is seen. */
  const Unset: Box := Box(FloatMax, FloatMin, FloatMax, FloatMin, FloatMin)

  /** One iteration of the bounds loop: widen the box to take in a vertex at (x, y, z). */
  function Widen(b: Box, x: real, y: real, z: real): Box {
    Box(if x < b.minX then x else b.minX,
        if x > b.maxX then x else b.maxX,
        if z < b.minZ then z else b.minZ,
        if z > b.maxZ then z else b.maxZ,
        if y > b.wallTop then y else b.wallTop)
  }

  /** The bounds loop run over the first `n` vertices of `table`. */
  function Extents(table: seq<real>, n: nat): Box
    requires n * Stride <= |table|
  {
    if n == 0 then Unset
    else
      var i := (n - 1) * Stride;
      Widen(Extents(table, n - 1), table[i], table[i + 1], table[i + 2])
  }

  /** The position of vertex `k` lies within the box `b`. */
  predicate Contains(b: Box, table: seq<real>, k: nat)
    requires k * Stride + 2 < |table|
  {
    b.minX <= table[k * Stride] <= b.maxX &&
    b.minZ <= table[k * Stride + 2] <= b.maxZ &&
    table[k * Stride + 1] <= b.wallTop
  }

  /**
   * After the loop every vertex seen lies within the bounds, and each bound
   * is either its initial value or attained by one of the vertices.
   */
  lemma {:induction false} ExtentsBound(table: seq<real>, n: nat)
    requires n * Stride <= |table|
    ensures forall k :: 0 <= k < n ==> Contains(Extents(table, n), table, k)
    ensures var b := Extents(table, n);
      (b.minX == FloatMax || exists k :: 0 <= k < n && b.minX == table[k * Stride]) &&
      (b.maxX == FloatMin || exists k :: 0 <= k < n && b.maxX == table[k * Stride]) &&
      (b.minZ == FloatMax || exists k :: 0 <= k < n && b.minZ == table[k * Stride + 2]) &&
      (b.maxZ == FloatMin || exists k :: 0 <= k < n && b.maxZ == table[k * Stride + 2]) &&
      (b.wallTop == FloatMin || exists k :: 0 <= k < n && b.wallTop == table[k * Stride + 1])
  {
    if n > 0 {
      ExtentsBound(table, n - 1);
      var b := Extents(table, n - 1);
      var i := (n - 1) * Stride;
      var c := Extents(table, n);
      assert c == Widen(b, table[i], table[i + 1], table[i + 2]);
      forall k | 0 <= k < n
        ensures Contains(c, table, k)
      {
        if k < n - 1 {
          assert Contains(b, table, k);
        }
      }
    }
  }

  /** Every vertex of the room lies within x, z in [-10, 10] and y in [0, 8]. */
  lemma CornerWithinRoom(k: nat)
    requires k < CornerCount
    ensures -10.0 <= Corner(k)[0] <= 10.0 && 0.0 <= Corner(k)[1] <= 8.0 && -10.0 <= Corner(k)[2] <= 10.0
  {
  }

  /** The positions in `table` are those of the room's vertices. */
  predicate RoomPositions(table: seq<real>) {
    |table| == CornerCount * Stride &&
    forall k :: 0 <= k < CornerCount ==>
      table[k * Stride] == Corner(k)[0] && table[k * Stride + 1] == Corner(k)[1] && table[k * Stride + 2] == Corner(k)[2]
  }

  /** The bounds loop over any table holding the room's vertex positions. */
  lemma ExtentsOfRoomPositions(t: seq<real>)
    requires RoomPositions(t)
    ensures Extents(t, CornerCount) == Box(-10.0, 10.0, -10.0, 10.0, 8.0)
  {
    var n := 0;
    while n < CornerCount
      invariant 0 <= n <= CornerCount
      invariant Extents(t, n) == ExtentsAfter(n)
    {
      CornerWithinRoom(n);
      n := n + 1;
    }
  }

  /** The bounds after the first `n` vertices of the room's table. */
  function ExtentsAfter(n: nat): Box {
    if n == 0 then Unset
    else if n == 1 then Box(-10.0, -10.0, 10.0, 10.0, 0.0)
    else if n == 2 then Box(-10.0, 10.0, 10.0, 10.0, 0.0)
    else if n < 7 then Box(-10.0, 10.0, -10.0, 10.0, 0.0)
    else Box(-10.0, 10.0, -10.0, 10.0, 8.0)
  }

  /** For the room's own table the bounds are x and z in [-10, 10] and walls 8 high. */
  lemma RoomExtents()
    ensures |RoomVertices| == CornerCount * Stride
    ensures Extents(RoomVertices, CornerCount) == Box(-10.0, 10.0, -10.0, 10.0, 8.0)
  {
    var t := RoomVertices;
    forall k | 0 <= k < CornerCount
      ensures t[k * Stride] == Corner(k)[0] && t[k * Stride + 1] == Corner(k)[1] && t[k * Stride + 2] == Corner(k)[2]
    {
      var i := k * Stride;
      assert i / Stride == k && i % Stride == 0;
      assert (i + 1) / Stride == k && (i + 1) % Stride == 1;
      assert (i + 2) / Stride == k && (i + 2) % Stride == 2;
    }
    ExtentsOfRoomPositions(t);
  }

  /** Math.Clamp: `lo` below the range, `hi` above it, the value inside; an empty range is an error. */
  function Clamp(v: real, lo: real, hi: real): (r: Option<real>)
    ensures r.Some? <==> lo <= hi
    ensures r.Some? ==> lo <= r.value <= hi && (lo <= v <= hi ==> r.value == v)
  {
    if lo > hi then None
    else if v < lo then Some(lo)
    else if v > hi then Some(hi)
    else Some(v)
  }

  /** Keeps the camera above the floor and inside the walls; without bounds it is left where it is. */
  function ConstrainCamera(b: Box, camPos: Vec3, radius: real): (r: Option<Vec3>)
  {
    if b.wallTop == FloatMin then Some(camPos)
    else
      var minY := 0.1 + radius;
      var y := if camPos.y < minY then minY else camPos.y;
      var x := Clamp(camPos.x, b.minX + radius, b.maxX - radius);
      var z := Clamp(camPos.z, b.minZ + radius, b.maxZ - radius);
      if x.None? || z.None? then None else Some(Vec3(x.value, y, z.value))
  }

  /** A player of radius `radius` at `toPos` would reach past a wall. The start position plays no part. */
  predicate BlocksMovement(b: Box, fromPos: Vec3, toPos: Vec3, radius: real) {
    b.wallTop != FloatMin &&
    (toPos.x - radius < b.minX || toPos.x + radius > b.maxX ||
     toPos.z - radius < b.minZ || toPos.z + radius > b.maxZ)
  }

  /** Pulls `toPos` back inside the walls by clamping x and z; without bounds it is returned unchanged. */
  function ConstrainMovement(b: Box, fromPos: Vec3, toPos: Vec3, radius: real): Vec3 {
    if b.wallTop == FloatMin then toPos
    else
      Vec3(Max(b.minX + radius, Min(b.maxX - radius, toPos.x)),
           toPos.y,
           Max(b.minZ + radius, Min(b.maxZ - radius, toPos.z)))
  }

  /** The range of x (and of z) a player of this radius may occupy is not empty. */
  predicate Roomy(b: Box, radius: real) {
    b.minX + radius <= b.maxX - radius && b.minZ + radius <= b.maxZ - radius
  }

  /** Before the bounds are computed nothing is constrained or blocked. */
  lemma UnloadedPassesThrough(b: Box, fromPos: Vec3, toPos: Vec3, radius: real)
    requires b.wallTop == FloatMin
    ensures ConstrainCamera(b, toPos, radius) == Some(toPos)
    ensures ConstrainMovement(b, fromPos, toPos, radius) == toPos
    ensures !BlocksMovement(b, fromPos, toPos, radius)
  {
  }

  /** Constraining leaves the height alone, ignores the start position, and a second pass changes nothing. */
  lemma ConstrainMovementIdempotent(b: Box, fromPos: Vec3, otherFrom: Vec3, toPos: Vec3, radius: real)
    ensures ConstrainMovement(b, fromPos, toPos, radius).y == toPos.y
    ensures ConstrainMovement(b, fromPos, toPos, radius) == ConstrainMovement(b, otherFrom, toPos, radius)
    ensures var once := ConstrainMovement(b, fromPos, toPos, radius);
      ConstrainMovement(b, fromPos, once, radius) == once
  {
  }

  /** In a room wide enough for the player the result lies inside the walls, and a point inside is kept. */
  lemma ConstrainMovementInside(b: Box, fromPos: Vec3, toPos: Vec3, radius: real)
    requires b.wallTop != FloatMin && Roomy(b, radius)
    ensures var r := ConstrainMovement(b, fromPos, toPos, radius);
      b.minX + radius <= r.x <= b.maxX - radius && b.minZ + radius <= r.z <= b.maxZ - radius
    ensures !BlocksMovement(b, fromPos, toPos, radius) ==> ConstrainMovement(b, fromPos, toPos, radius) == toPos
  {
  }

  /** In a room wide enough for the player, a move is blocked exactly when constraining it would change it. */
  lemma BlocksIffConstrained(b: Box, fromPos: Vec3, toPos: Vec3, radius: real)
    requires Roomy(b, radius)
    ensures BlocksMovement(b, fromPos, toPos, radius) <==> ConstrainMovement(b, fromPos, toPos, radius) != toPos
  {
  }

  /**
   * With bounds, the camera ends at least 0.1 + radius high and inside the
   * walls, and is an error exactly when the room is narrower than the camera.
   */
  lemma ConstrainCameraBounds(b: Box, camPos: Vec3, radius: real)
    requires b.wallTop != FloatMin
    ensures ConstrainCamera(b, camPos, radius).Some? <==> Roomy(b, radius)
    ensures var r := ConstrainCamera(b, camPos, radius);
      r.Some? ==>
        r.value.y >= 0.1 + radius && (camPos.y >= 0.1 + radius ==> r.value.y == camPos.y) &&
        b.minX + radius <= r.value.x <= b.maxX - radius &&
        b.minZ + radius <= r.value.z <= b.maxZ - radius
  {
  }

  /** The room: its vertex table and the bounds derived from it. */
  class Room {
    const vertices: seq<real>
    var minX: real
    var maxX: real
    var minZ: real
    var maxZ: real
    var wallTop: real

    function Bounds(): Box
      reads this
    {
      Box(minX, maxX, minZ, maxZ, wallTop)
    }

    constructor ()
      ensures vertices == RoomVertices && Bounds() == Unset
    {
      vertices := RoomVertices;
      minX, maxX, minZ, maxZ, wallTop := FloatMax, FloatMin, FloatMax, FloatMin, FloatMin;
    }

    /** The bounds part of loading: reset the extremes, then take in every vertex of the table. */
    method Load()
      requires |vertices| % Stride == 0
      modifies this
      ensures Bounds() == Extents(vertices, |vertices| / Stride)
    {
      minX, maxX, minZ, maxZ, wallTop := FloatMax, FloatMin, FloatMax, FloatMin, FloatMin;
      ghost var n := 0;
      var i := 0;
      while i < |vertices|
        invariant i == n * Stride && i <= |vertices|
        invariant Bounds() == Extents(vertices, n)
      {
        var x := vertices[i + 0];
        var y := vertices[i + 1];
        var z := vertices[i + 2];
        if x < minX { minX := x; }
        if x > maxX { maxX := x; }
        if z < minZ { minZ := z; }
        if z > maxZ { maxZ := z; }
        if y > wallTop { wallTop := y; }
        n := n + 1;
        i := i + Stride;
      }
      assert n == |vertices| / Stride;
    }

    function ConstrainCameraPosition(camPos: Vec3, radius: real): (r: Option<Vec3>)
      reads this
      ensures r == ConstrainCamera(Bounds(), camPos, radius)
    {
      ConstrainCamera(Bounds(), camPos, radius)
    }

    predicate Blocks(fromPos: Vec3, toPos: Vec3, radius: real)
      reads this
      ensures Blocks(fromPos, toPos, radius) == BlocksMovement(Bounds(), fromPos, toPos, radius)
    {
      BlocksMovement(Bounds(), fromPos, toPos, radius)
    }

    function Constrain(fromPos: Vec3, toPos: Vec3, radius: real): (r: Vec3)
      reads this
      ensures r == ConstrainMovement(Bounds(), fromPos, toPos, radius)
    {
      ConstrainMovement(Bounds(), fromPos, toPos, radius)
    }
  }

  /** Loading the room's own table gives walls at x, z = ±10 that are 8 high. */
  method LoadedRoom() returns (room: Room)
    ensures fresh(room) && room.Bounds() == Box(-10.0, 10.0, -10.0, 10.0, 8.0)
  {
    room := new Room();
    RoomExtents();
    assert |room.vertices| / Stride == CornerCount;
    room.Load();
  }
}
