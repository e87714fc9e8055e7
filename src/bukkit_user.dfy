/**
 * `BukkitUser`: a player on a Bukkit backend. Game state is read live from the server; only
 * the status flags the server has no notion of (away, combat, muted, busy, vanished, custom)
 * live in the status cache.
 */
module BukkitUsers {
  import opened Wrappers
  import opened Values
  import opened Text
  import opened StatusTypes
  import opened StatusCache
  import PlayerInfo
  import Locations

  /** `org.bukkit.GameMode`. */
  datatype BukkitGameMode = BukkitSurvival | BukkitCreative | BukkitAdventure | BukkitSpectator

  /** `GameMode.name()`. */
  function BukkitModeName(m: BukkitGameMode): string
  {
    match m
    case BukkitSurvival => "SURVIVAL"
    case BukkitCreative => "CREATIVE"
    case BukkitAdventure => "ADVENTURE"
    case BukkitSpectator => "SPECTATOR"
  }

  /** `org.bukkit.Location`: a world name and coordinates. */
  datatype BukkitLocation = BukkitLocation(world: string, x: real, y: real, z: real, yaw: real, pitch: real)

  /**
   * The parts of Bukkit's `Player` the core reads. `permissionsSet` are the nodes for which
   * `isPermissionSet` holds and `granted` those for which `hasPermission` holds;
   * `vanishedMetadata` is `hasMetadata("vanished")` and `canSeeSelf` is `canSee(player)`.
   */
  datatype BukkitPlayer = BukkitPlayer(
    name: string,
    uuid: Uuid,
    permissionsSet: set<string>,
    granted: set<string>,
    op: bool,
    health: real,
    maxHealth: real,
    foodLevel: int,
    level: int,
    gameMode: BukkitGameMode,
    sneaking: bool,
    flying: bool,
    vanishedMetadata: bool,
    canSeeSelf: bool,
    location: BukkitLocation,
    online: bool,
    ping: int)

  /** `BukkitPlayerLocation.from(server, location)`: a location keeping the interface's default methods. */
  function LocationFrom(server: string, l: BukkitLocation): (r: Locations.PlayerLocation)
    ensures r.impl == Locations.DefaultLocation && r.server == server && r.world == l.world
    ensures r.x == l.x && r.y == l.y && r.z == l.z
  {
    Locations.PlayerLocation(Locations.DefaultLocation, server, l.world, l.x, l.y, l.z, l.yaw, l.pitch)
  }

  /** The switch in `getGameMode`. */
  function ModeOf(m: BukkitGameMode): (r: PlayerInfo.GameMode)
    ensures r != PlayerInfo.Unknown
  {
    match m
    case BukkitSurvival => PlayerInfo.Survival
    case BukkitCreative => PlayerInfo.Creative
    case BukkitAdventure => PlayerInfo.Adventure
    case BukkitSpectator => PlayerInfo.Spectator
  }

  /** The platform's four modes map one-to-one onto the plugin's. */
  lemma ModeOfInjective(a: BukkitGameMode, b: BukkitGameMode)
    requires ModeOf(a) == ModeOf(b)
    ensures a == b
  {
  }

  /**
   * The upper-case Bukkit name that the backend sends for a mode change reads back, through
   * `GameMode.fromName`, as the very mode `getGameMode` reports.
   */
  lemma {:induction false} ModeNameReadsBack(m: BukkitGameMode)
    ensures PlayerInfo.FromName(BukkitModeName(m)) == ModeOf(m)
  {
    LowerModeName(m);
    PlayerInfo.NamesDistinct(PlayerInfo.FromName(BukkitModeName(m)), ModeOf(m), PlayerInfo.Name(ModeOf(m)));
  }

  /** Lower-casing the Bukkit name gives the plugin's name of the same mode. */
  lemma LowerModeName(m: BukkitGameMode)
    ensures Lower(BukkitModeName(m)) == PlayerInfo.Name(ModeOf(m))
  {
    match m
    case BukkitSurvival => LowerWord("SURVIVAL", "survival");
    case BukkitCreative => LowerWord("CREATIVE", "creative");
    case BukkitAdventure => LowerWord("ADVENTURE", "adventure");
    case BukkitSpectator => LowerWord("SPECTATOR", "spectator");
  }

  /** The types whose values `getAllStatuses` takes from the live player rather than the cache. */
  function LiveTypes(): set<StatusType>
  {
    {Sneaking, Flying, GameMode, FoodLevel, ExperienceLevel}
  }

  class BukkitUser {
    const player: BukkitPlayer
    const joinTime: int
    var statusCache: Cache

    ghost predicate Valid()
      reads this
    {
      WellTyped(statusCache)
    }

    /**
     * `adapt`: always a new user with a freshly seeded cache; nothing written through an earlier
     * adapter of the same player is visible here.
     */
    constructor Adapt(player: BukkitPlayer, now: int)
      ensures this.player == player && joinTime == now
      ensures statusCache == DefaultStatuses()
      ensures Valid()
    {
      this.player := player;
      joinTime := now;
      statusCache := DefaultStatuses();
      DefaultsWellTyped();
    }

    function Username(): string { player.name }
    function Uuid(): Uuid { player.uuid }
    function Ping(): int { player.ping }
    function ServerName(): string { "server" }
    predicate IsOnline() { player.online }

    /** `hasPermission`: the player's answer for a node set on it; otherwise the default, or operator status. */
    function HasPermission(node: Option<string>, allowByDefault: bool): (r: bool)
      ensures node.Some? && node.value in player.permissionsSet ==> (r <==> node.value in player.granted)
      ensures (node.None? || node.value !in player.permissionsSet) ==> (r <==> allowByDefault || player.op)
    {
      if node.Some? && node.value in player.permissionsSet then node.value in player.granted
      else allowByDefault || player.op
    }

    function Health(): real { player.health }
    function MaxHealth(): real { player.maxHealth }
    function FoodLevel(): int { player.foodLevel }
    function ExperienceLevel(): int { player.level }
    function Location(): Locations.PlayerLocation { LocationFrom(ServerName(), player.location) }
    function GameMode(): PlayerInfo.GameMode { ModeOf(player.gameMode) }
    predicate IsSneaking() { player.sneaking }
    predicate IsFlying() { player.flying }
    function SessionTime(now: int): int { now - joinTime }

    /** `isVanished`: the cached flag, the "vanished" metadata, or being unable to see oneself. */
    predicate IsVanished()
      reads this
      requires Valid()
    {
      CachedBool(statusCache, StatusType.Vanished) || player.vanishedMetadata || !player.canSeeSelf
    }

    predicate IsInCombat() reads this requires Valid() { CachedBool(statusCache, StatusType.Combat) }
    predicate IsAway() reads this requires Valid() { CachedBool(statusCache, StatusType.Away) }
    predicate IsMuted() reads this requires Valid() { CachedBool(statusCache, StatusType.Muted) }

    function GetStatus(t: StatusType): Option<Value>
      reads this
    {
      EntryAt(statusCache, t)
    }

    /**
     * `getAllStatuses`: a copy of the cache with the live sneaking, flying, game-mode name, food
     * and experience values written over their types; every other entry is the cache's own.
     */
    function GetAllStatuses(): (r: Cache)
      reads this
      ensures r.Keys == statusCache.Keys + LiveTypes()
      ensures r[StatusType.Sneaking] == BoolV(IsSneaking()) && r[StatusType.Flying] == BoolV(IsFlying())
      ensures r[StatusType.GameMode] == StrV(PlayerInfo.Name(GameMode()))
      ensures r[StatusType.FoodLevel] == IntV(FoodLevel()) && r[StatusType.ExperienceLevel] == IntV(ExperienceLevel())
      ensures forall t :: t in statusCache && t !in LiveTypes() ==> r[t] == statusCache[t]
    {
      statusCache[StatusType.Sneaking := BoolV(IsSneaking())][StatusType.Flying := BoolV(IsFlying())]
                 [StatusType.GameMode := StrV(PlayerInfo.Name(GameMode()))]
                 [StatusType.FoodLevel := IntV(FoodLevel())][StatusType.ExperienceLevel := IntV(ExperienceLevel())]
    }

    method UpdateStatus(t: StatusType, v: Value)
      requires Valid()
      modifies this
      ensures statusCache == Update(old(statusCache), t, v)
      ensures Valid()
    {
      UpdateKeepsWellTyped(statusCache, t, v);
      if IsValidValue(t, Some(v)) {
        statusCache := statusCache[t := v];
      }
    }

    method RemoveStatus(t: StatusType)
      requires Valid()
      modifies this
      ensures statusCache == Remove(old(statusCache), t)
      ensures Valid()
    {
      RemoveKeepsWellTyped(statusCache, t);
      statusCache := statusCache - {t};
    }
  }

  /** The live overlay keeps the kind discipline, so the snapshot can be read back with the getters' casts. */
  lemma AllStatusesWellTyped(u: BukkitUser)
    requires u.Valid()
    ensures WellTyped(u.GetAllStatuses())
  {
  }

  /** A player the server hides from itself counts as vanished whatever the cache says. */
  lemma HiddenFromSelfIsVanished(u: BukkitUser)
    requires u.Valid() && !u.player.canSeeSelf
    ensures u.IsVanished()
  {
  }
}
