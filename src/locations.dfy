/**
 * `PlayerLocationChangeEvent.PlayerLocation` with its default methods, the move-level tests of
 * `PlayerLocationChangeEvent`, and the proxy-side `BungeePlayerLocation`, which overrides the
 * region id and adds its own distance and same-world tests.
 */
module Locations {
  import opened Wrappers
  import opened Text

  /**
   * Which class implements the location. `BungeePlayerLocation` overrides `getRegionId`;
   * `BukkitPlayerLocation` keeps the interface defaults. `VelocityPlayerLocation` is not part of
   * this model and is treated as keeping the defaults.
   */
  datatype LocationClass = BungeeLocation | DefaultLocation

  /** Coordinates are Java doubles and yaw/pitch Java floats, modelled as reals. */
  datatype PlayerLocation = PlayerLocation(
    impl: LocationClass,
    server: string,
    world: string,
    x: real, y: real, z: real,
    yaw: real, pitch: real)

  datatype MovementReason = PlayerMovement | Teleport | ServerSwitch | WorldChange | Respawn | Plugin | Other

  /**
   * A distance as the source returns it: either a sentinel number (-1 or `Double.MAX_VALUE`)
   * or `Math.sqrt` of a sum of squares, kept here as that sum since square roots are not modelled.
   */
  datatype Measure = Sentinel(value: real) | Euclidean(squared: real)

  /** `Double.MAX_VALUE`, that is (2^53 - 1) * 2^971. */
  const MaxDouble: real := 179769313486231570814527423731704356798070567525844996598917476803157260780028538760589558632766878171540458953514382464234321326889464182768467546703537516986049910576551282076245490090389328944075868508455133942304583236903222948165808559332123348274797826204144723168738177180919299881250404026184124858368 as real

  const IntMin: int := -0x8000_0000
  const IntMax: int := 0x7FFF_FFFF

  /** Java's `(int)` cast of a double: truncation toward zero, saturating at the `int` range. */
  function JavaIntCast(r: real): (i: int)
    ensures IntMin <= i <= IntMax
    ensures IntMin as real <= r <= IntMax as real ==> (i as real <= r < i as real + 1.0 || i as real - 1.0 < r <= i as real)
    ensures IntMin as real <= r <= IntMax as real ==> (r >= 0.0 ==> i >= 0 && i as real <= r) && (r <= 0.0 ==> i <= 0 && r <= i as real)
  {
    var t := if r >= 0.0 then r.Floor else -((-r).Floor);
    if t < IntMin then IntMin else if t > IntMax then IntMax else t
  }

  /** `(int) v >> 4`: an arithmetic shift by four is floor division by 16. */
  function ChunkOf(v: real): (c: int)
    ensures 16 * c <= JavaIntCast(v) < 16 * c + 16
  {
    JavaIntCast(v) / 16
  }

  /** Truncation, not flooring: the half block just below zero falls in chunk 0, not chunk -1. */
  lemma ChunkOfJustBelowZero()
    ensures ChunkOf(-0.5) == 0
  {
  }

  /** `getChunkCoordinates`: `"%d,%d"` of the two chunk numbers. */
  function ChunkCoordinates(l: PlayerLocation): string
  {
    IntToString(ChunkOf(l.x)) + "," + IntToString(ChunkOf(l.z))
  }

  /**
   * `getRegionId`: `server:world:chunk` for the interface default, `server:world` for a
   * `BungeePlayerLocation`.
   */
  function RegionId(l: PlayerLocation): (id: string)
    ensures StartsWith(id, l.server + ":" + l.world)
    ensures l.impl == BungeeLocation ==> id == l.server + ":" + l.world
    ensures l.impl == DefaultLocation ==> id == l.server + ":" + l.world + ":" + ChunkCoordinates(l)
  {
    match l.impl
    case BungeeLocation => l.server + ":" + l.world
    case DefaultLocation => l.server + ":" + l.world + ":" + ChunkCoordinates(l)
  }

  function SquaredDistance(a: PlayerLocation, b: PlayerLocation): real
  {
    (a.x - b.x) * (a.x - b.x) + (a.y - b.y) * (a.y - b.y) + (a.z - b.z) * (a.z - b.z)
  }

  /** `PlayerLocation.distance`: -1 across worlds or servers, otherwise the Euclidean distance. */
  function Distance(a: PlayerLocation, b: PlayerLocation): (d: Measure)
    ensures d.Sentinel? <==> a.world != b.world || a.server != b.server
    ensures d.Sentinel? ==> d.value == -1.0
    ensures d.Euclidean? ==> d.squared >= 0.0
  {
    if a.world != b.world || a.server != b.server then Sentinel(-1.0)
    else Euclidean(SquaredDistance(a, b))
  }

  /** `distance` does not depend on the order of its two locations. */
  lemma {:induction false} DistanceSymmetric(a: PlayerLocation, b: PlayerLocation)
    ensures Distance(a, b) == Distance(b, a)
  {
    assert (a.x - b.x) * (a.x - b.x) == (b.x - a.x) * (b.x - a.x);
    assert (a.y - b.y) * (a.y - b.y) == (b.y - a.y) * (b.y - a.y);
    assert (a.z - b.z) * (a.z - b.z) == (b.z - a.z) * (b.z - a.z);
  }

  /** `isCrossWorld`: there was a previous location and its world name differs. */
  predicate IsCrossWorld(previous: Option<PlayerLocation>, next: PlayerLocation)
  {
    previous.Some? && previous.value.world != next.world
  }

  /** `isCrossServer`: there was a previous location and its server name differs. */
  predicate IsCrossServer(previous: Option<PlayerLocation>, next: PlayerLocation)
  {
    previous.Some? && previous.value.server != next.server
  }

  /** `getDistance`: -1 without a previous location or across worlds, otherwise `previous.distance(next)`. */
  function MoveDistance(previous: Option<PlayerLocation>, next: PlayerLocation): (d: Measure)
    ensures previous.None? || IsCrossWorld(previous, next) ==> d == Sentinel(-1.0)
    ensures previous.Some? && !IsCrossWorld(previous, next) ==> d == Distance(previous.value, next)
  {
    if previous.None? || IsCrossWorld(previous, next) then Sentinel(-1.0)
    else Distance(previous.value, next)
  }

  /** A move across servers in the same-named world is measured as -1 too, by `distance` itself. */
  lemma CrossServerMoveIsUnmeasured(previous: PlayerLocation, next: PlayerLocation)
    requires IsCrossServer(Some(previous), next)
    ensures MoveDistance(Some(previous), next) == Sentinel(-1.0)
  {
  }

  /** `BungeePlayerLocation.from(server, world)`: the origin, facing straight ahead. */
  function BungeeFrom(server: string, world: string): (l: PlayerLocation)
    ensures l.impl == BungeeLocation && l.server == server && l.world == world
    ensures l.x == 0.0 && l.y == 0.0 && l.z == 0.0 && l.yaw == 0.0 && l.pitch == 0.0
  {
    PlayerLocation(BungeeLocation, server, world, 0.0, 0.0, 0.0, 0.0, 0.0)
  }

  /** `BungeePlayerLocation.from(server, world, x, y, z, yaw, pitch)`. */
  function BungeeFromCoordinates(server: string, world: string, x: real, y: real, z: real, yaw: real, pitch: real): (l: PlayerLocation)
    ensures l.impl == BungeeLocation
    ensures BungeeEquals(l, PlayerLocation(BungeeLocation, server, world, x, y, z, yaw, pitch))
  {
    PlayerLocation(BungeeLocation, server, world, x, y, z, yaw, pitch)
  }

  /** `BungeePlayerLocation.distanceTo`: `Double.MAX_VALUE` when the region ids differ, else the Euclidean distance. */
  function BungeeDistanceTo(self: PlayerLocation, other: PlayerLocation): (d: Measure)
    requires self.impl == BungeeLocation
    ensures d.Sentinel? <==> RegionId(self) != RegionId(other)
    ensures d.Sentinel? ==> d.value == MaxDouble
  {
    if RegionId(self) != RegionId(other) then Sentinel(MaxDouble)
    else Euclidean(SquaredDistance(self, other))
  }

  /** Two proxy locations on the same server and world are always measured. */
  lemma BungeeDistanceWithinRegion(a: PlayerLocation, b: PlayerLocation)
    requires a.impl == BungeeLocation && b.impl == BungeeLocation
    requires a.server == b.server && a.world == b.world
    ensures BungeeDistanceTo(a, b) == Euclidean(SquaredDistance(a, b))
  {
  }

  predicate BungeeIsSameWorld(self: PlayerLocation, other: PlayerLocation)
  {
    self.server == other.server && self.world == other.world
  }

  predicate BungeeIsSameServer(self: PlayerLocation, other: PlayerLocation)
  {
    self.server == other.server
  }

  lemma SameWorldIsSameServer(a: PlayerLocation, b: PlayerLocation)
    requires BungeeIsSameWorld(a, b)
    ensures BungeeIsSameServer(a, b)
  {
  }

  /** `BungeePlayerLocation.equals`: the other object is a `BungeePlayerLocation` with all seven fields equal. */
  predicate BungeeEquals(self: PlayerLocation, other: PlayerLocation)
  {
    other.impl == BungeeLocation
    && self.server == other.server && self.world == other.world
    && self.x == other.x && self.y == other.y && self.z == other.z
    && self.yaw == other.yaw && self.pitch == other.pitch
  }

  /** Equality of proxy locations is reflexive and coincides with equality of the records. */
  lemma BungeeEqualsIsFieldEquality(a: PlayerLocation, b: PlayerLocation)
    requires a.impl == BungeeLocation
    ensures BungeeEquals(a, a)
    ensures BungeeEquals(a, b) <==> a == b
  {
  }
}
