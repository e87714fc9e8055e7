/**
 * `VelocityUser`: a player on a Velocity proxy. The proxy cannot see the player's game state,
 * so everything but connection facts is read from a status cache that backends keep current.
 */
module VelocityUsers {
  import opened Wrappers
  import opened Values
  import opened StatusTypes
  import opened StatusCache
  import PlayerInfo

  /**
   * The parts of Velocity's `Player` the user reads. A node missing from `permissionValues`
   * is NOT_SET; `currentServer` is the name of the connected backend, if any.
   */
  datatype VelocityPlayer = VelocityPlayer(
    username: string,
    uuid: Uuid,
    permissionValues: map<string, bool>,
    currentServer: Option<string>,
    ping: int,
    active: bool)

  class VelocityUser {
    const player: VelocityPlayer
    /** `System.currentTimeMillis()` when the user was adapted. */
    const joinTime: int
    var statusCache: Cache

    /** Every cached value has its type's kind, so the getters' casts succeed. */
    ghost predicate Valid()
      reads this
    {
      WellTyped(statusCache)
    }

    /** `adapt`: a new user whose cache is seeded by `initializeStatusCache`. */
    constructor Adapt(player: VelocityPlayer, now: int)
      ensures this.player == player && joinTime == now
      ensures statusCache == DefaultStatuses()
      ensures Valid()
    {
      this.player := player;
      joinTime := now;
      statusCache := DefaultStatuses();
      DefaultsWellTyped();
    }

    function Username(): string { player.username }
    function Uuid(): Uuid { player.uuid }
    function Ping(): int { player.ping }
    predicate IsOnline() { player.active }

    /** `getServerName`: the connected server's name, or the empty string when not connected. */
    function ServerName(): (r: string)
      ensures player.currentServer.Some? ==> r == player.currentServer.value
      ensures player.currentServer.None? ==> r == ""
    {
      match player.currentServer
      case Some(s) => s
      case None => ""
    }

    /** `hasPermission`: the default for a null or NOT_SET node, the explicit TRUE/FALSE otherwise. */
    function HasPermission(node: Option<string>, allowByDefault: bool): (r: bool)
      ensures (node.None? || node.value !in player.permissionValues) ==> r == allowByDefault
      ensures node.Some? && node.value in player.permissionValues ==> r == player.permissionValues[node.value]
    {
      match node
      case None => allowByDefault
      case Some(n) => if n in player.permissionValues then player.permissionValues[n] else allowByDefault
    }

    function Health(): real reads this requires Valid() { CachedDouble(statusCache, StatusType.Health, 20.0) }
    function MaxHealth(): real reads this requires Valid() { CachedDouble(statusCache, StatusType.MaxHealth, 20.0) }
    function FoodLevel(): int reads this requires Valid() { CachedInt(statusCache, StatusType.FoodLevel, 20) }
    function ExperienceLevel(): int reads this requires Valid() { CachedInt(statusCache, StatusType.ExperienceLevel, 0) }
    function ClientBrand(): Option<string> reads this requires Valid() { CachedString(statusCache, StatusType.ClientBrand, None) }
    function FirstJoinTime(): int reads this requires Valid() { CachedLong(statusCache, StatusType.FirstJoinTime, joinTime) }
    function LastLoginTime(): int reads this requires Valid() { CachedLong(statusCache, StatusType.LastLoginTime, joinTime) }
    function SessionTime(now: int): int { now - joinTime }
    function TotalOnlineTime(now: int): int reads this requires Valid() { CachedLong(statusCache, StatusType.TotalOnlineTime, SessionTime(now)) }

    /** `getGameMode`: the cached mode name, SURVIVAL when none is cached, through `fromName`. */
    function GameMode(): PlayerInfo.GameMode
      reads this
      requires Valid()
    {
      PlayerInfo.FromName(CachedString(statusCache, StatusType.GameMode, Some("SURVIVAL")).value)
    }

    predicate IsSneaking() reads this requires Valid() { CachedBool(statusCache, StatusType.Sneaking) }
    predicate IsFlying() reads this requires Valid() { CachedBool(statusCache, StatusType.Flying) }
    predicate IsVanished() reads this requires Valid() { CachedBool(statusCache, StatusType.Vanished) }
    predicate IsInCombat() reads this requires Valid() { CachedBool(statusCache, StatusType.Combat) }
    predicate IsAway() reads this requires Valid() { CachedBool(statusCache, StatusType.Away) }
    predicate IsMuted() reads this requires Valid() { CachedBool(statusCache, StatusType.Muted) }

    /** `getStatus`: the cached value, or empty. */
    function GetStatus(t: StatusType): Option<Value>
      reads this
    {
      EntryAt(statusCache, t)
    }

    /** `getAllStatuses`: the cache overlaid with this player's live server name and ping. */
    function GetAllStatuses(): (r: Cache)
      reads this
      ensures r.Keys == statusCache.Keys + {StatusType.Server, StatusType.Ping}
      ensures r[StatusType.Server] == StrV(ServerName()) && r[StatusType.Ping] == IntV(Ping())
      ensures forall t :: t in statusCache && t != StatusType.Server && t != StatusType.Ping ==> r[t] == statusCache[t]
    {
      WithProxyReadings(statusCache, ServerName(), Ping())
    }

    /** `updateStatus`: a validated write. */
    method UpdateStatus(t: StatusType, v: Value)
      requires Valid()
      modifies this
      ensures statusCache == Update(old(statusCache), t, v)
      ensures Valid()
    {
      UpdateKeepsWellTyped(statusCache, t, v);
      if IsValidValue(t, Some(v)) {
        statusCache := statusCache[t := v];
      }
    }

    /** `removeStatus`: drop one entry. */
    method RemoveStatus(t: StatusType)
      requires Valid()
      modifies this
      ensures statusCache == Remove(old(statusCache), t)
      ensures Valid()
    {
      RemoveKeepsWellTyped(statusCache, t);
      statusCache := statusCache - {t};
    }

    /**
     * `syncFromBackend`: `updateStatus(fromKey(key), value)` for every snapshot entry, in the
     * map's own (unspecified) order.
     */
    method SyncFromBackend(serverData: map<string, Value>)
      requires Valid()
      modifies this
      ensures SyncedFrom(old(statusCache), serverData, serverData.Keys, statusCache)
      ensures Valid()
    {
      var remaining := serverData.Keys;
      ghost var processed: set<string> := {};
      SyncedFromNothing(statusCache, serverData);
      while remaining != {}
        invariant remaining !! processed && remaining + processed == serverData.Keys
        invariant Valid()
        invariant SyncedFrom(old(statusCache), serverData, processed, statusCache)
        decreases |remaining|
      {
        var key :| key in remaining;
        SyncStep(old(statusCache), serverData, processed, statusCache, key);
        UpdateStatus(FromKey(key), serverData[key]);
        remaining := remaining - {key};
        processed := processed + {key};
      }
    }
  }

  /** The proxy-side overlay never breaks the kind discipline: SERVER gets a String, PING an Integer. */
  lemma AllStatusesWellTyped(u: VelocityUser)
    requires u.Valid()
    ensures WellTyped(u.GetAllStatuses())
  {
  }

  /** A fresh user reads as not muted, not in combat, not away, at full default health, in SURVIVAL. */
  lemma {:induction false} FreshUserReadsDefaults(u: VelocityUser)
    requires u.statusCache == DefaultStatuses()
    ensures u.Valid()
    ensures !u.IsMuted() && !u.IsInCombat() && !u.IsAway() && !u.IsVanished()
    ensures u.Health() == 20.0 && u.MaxHealth() == 20.0 && u.FoodLevel() == 20
    ensures u.GameMode() == PlayerInfo.Survival
  {
    DefaultsWellTyped();
    PlayerInfo.FromNameOfSurvivalDefault();
  }
}
