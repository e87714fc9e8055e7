/**
 * `BukkitPlayerStatusListener`: the backend half of status replication. It turns Bukkit player
 * events into plugin events and into plugin messages to the proxy, remembers each player's last
 * location and health, and answers the proxy's sync requests.
 */
module BukkitListener {
  import opened Wrappers
  import opened Values
  import opened StatusTypes
  import opened StatusCache
  import opened Messages
  import opened Events
  import opened Transport
  import opened BukkitUsers
  import Locations
  import ExtendedApi

  const RespawnedReason: string := "Player respawned"
  const GameModeReason: string := "Game mode changed"
  const SneakReason: string := "Sneak toggled"
  const FlightReason: string := "Flight toggled"
  const PluginMessageWarning: string := "Failed to handle plugin message"

  /** `Location.getBlockX()` and `getBlockZ()`: the coordinate rounded down. */
  predicate SameBlockColumn(from: BukkitLocation, to: BukkitLocation)
  {
    from.x.Floor == to.x.Floor && from.z.Floor == to.z.Floor
  }

  /** The data of a LOCATION_CHANGE: both worlds and both sets of coordinates. */
  function LocationData(from: Locations.PlayerLocation, to: Locations.PlayerLocation): (d: map<string, Value>)
    ensures d.Keys == {"from_world", "from_x", "from_y", "from_z", "to_world", "to_x", "to_y", "to_z"}
    ensures d["from_world"] == StrV(from.world) && d["to_world"] == StrV(to.world)
    ensures d["from_x"] == DoubleV(from.x) && d["from_y"] == DoubleV(from.y) && d["from_z"] == DoubleV(from.z)
    ensures d["to_x"] == DoubleV(to.x) && d["to_y"] == DoubleV(to.y) && d["to_z"] == DoubleV(to.z)
  {
    map["from_world" := StrV(from.world), "from_x" := DoubleV(from.x), "from_y" := DoubleV(from.y), "from_z" := DoubleV(from.z),
        "to_world" := StrV(to.world), "to_x" := DoubleV(to.x), "to_y" := DoubleV(to.y), "to_z" := DoubleV(to.z)]
  }

  /** `Math.max(0, health - damage)`. */
  function HealthAfterDamage(health: real, damage: real): (r: real)
    ensures r >= 0.0
    ensures r == health - damage || (r == 0.0 && health - damage <= 0.0)
  {
    if health - damage > 0.0 then health - damage else 0.0
  }

  /** The PLAYER_DEATH message: a death-message entry only when there is a text, a killer entry only when there is a killer. */
  function DeathReport(uuid: Uuid, name: string, server: string, killerName: Option<string>,
                       deathMessage: Option<string>, now: int): (m: PlayerStatusMessage)
    ensures m.messageType == PlayerDeath && m.playerUuid == uuid && m.serverName == server
    ensures GetString(m, DeathMessageField) == deathMessage
    ensures GetString(m, KillerField) == killerName
    ensures forall k :: k in m.data ==> m.data[k].StrV?
  {
    var text := if deathMessage.Some? then map[DeathMessageField := StrV(deathMessage.value)] else map[];
    var killer := if killerName.Some? then map[KillerField := StrV(killerName.value)] else map[];
    PlayerStatusMessage(PlayerDeath, uuid, name, server, now, text + killer)
  }

  /** The PLAYER_RESPAWN message: just the reason. */
  function RespawnReport(uuid: Uuid, name: string, server: string, reason: string, now: int): (m: PlayerStatusMessage)
    ensures m.messageType == PlayerRespawn && m.playerUuid == uuid && m.serverName == server
    ensures m.data == map[ReasonField := StrV(reason)]
  {
    PlayerStatusMessage(PlayerRespawn, uuid, name, server, now, map[ReasonField := StrV(reason)])
  }

  /** A status update built from a non-null value always exists. */
  function StatusReport(uuid: Uuid, name: string, server: string, t: StatusType, v: Value, reason: string, now: int): (m: PlayerStatusMessage)
    ensures CreateStatusUpdate(uuid, name, server, t, Some(v), reason, now) == Ok(m)
  {
    CreateStatusUpdate(uuid, name, server, t, Some(v), reason, now).value
  }

  /**
   * The sync snapshot exactly as `handleSyncRequest` builds it. Its food, experience and game-mode
   * entries are keyed "food_level", "experience_level" and "game_mode", none of which is the key of
   * any status type.
   */
  function SnapshotAsWritten(p: BukkitPlayer): (d: map<string, Value>)
    ensures d.Keys == {"health", "max_health", "food_level", "experience_level", "game_mode", "sneaking", "flying", "world"}
  {
    map["health" := DoubleV(p.health), "max_health" := DoubleV(p.maxHealth), "food_level" := IntV(p.foodLevel),
        "experience_level" := IntV(p.level), "game_mode" := StrV(BukkitModeName(p.gameMode)),
        "sneaking" := BoolV(p.sneaking), "flying" := BoolV(p.flying), "world" := StrV(p.location.world)]
  }

  /** The sync snapshot with every entry under its status type's own key. */
  function Snapshot(p: BukkitPlayer): (d: map<string, Value>)
    ensures d.Keys == {Key(StatusType.Health), Key(StatusType.MaxHealth), Key(StatusType.FoodLevel),
                       Key(StatusType.ExperienceLevel), Key(StatusType.GameMode), Key(StatusType.Sneaking),
                       Key(StatusType.Flying), Key(StatusType.World)}
  {
    map[Key(StatusType.Health) := DoubleV(p.health), Key(StatusType.MaxHealth) := DoubleV(p.maxHealth),
        Key(StatusType.FoodLevel) := IntV(p.foodLevel), Key(StatusType.ExperienceLevel) := IntV(p.level),
        Key(StatusType.GameMode) := StrV(BukkitModeName(p.gameMode)), Key(StatusType.Sneaking) := BoolV(p.sneaking),
        Key(StatusType.Flying) := BoolV(p.flying), Key(StatusType.World) := StrV(p.location.world)]
  }

  /** `getServer().getPlayer(uuid)`: the online player with that UUID, if any. */
  function FindPlayer(serverPlayers: seq<BukkitPlayer>, uuid: Uuid): (r: Option<BukkitPlayer>)
    ensures r.Some? ==> r.value in serverPlayers && r.value.uuid == uuid
    ensures r.None? <==> forall i :: 0 <= i < |serverPlayers| ==> serverPlayers[i].uuid != uuid
  {
    if serverPlayers == [] then None
    else if serverPlayers[0].uuid == uuid then Some(serverPlayers[0])
    else FindPlayer(serverPlayers[1..], uuid)
  }

  class BukkitPlayerStatusListener {
    /** `plugin.getServerName()`. */
    const serverName: string
    /** Where fired events are recorded. */
    const api: ExtendedApi.HuskChatExtendedApi
    var lastLocations: map<Uuid, Locations.PlayerLocation>
    var lastHealthValues: map<Uuid, real>
    /** Plugin messages sent to the proxy so far, in order. */
    var outbox: seq<Outgoing>
    /** Warnings logged so far. */
    var warnings: seq<string>

    constructor (serverName: string, api: ExtendedApi.HuskChatExtendedApi)
      ensures this.serverName == serverName && this.api == api
      ensures lastLocations == map[] && lastHealthValues == map[] && outbox == [] && warnings == []
    {
      this.serverName := serverName;
      this.api := api;
      lastLocations := map[];
      lastHealthValues := map[];
      outbox := [];
      warnings := [];
    }

    /**
     * `onPlayerMove`: a move within one block column is ignored. Otherwise the new location is
     * recorded, and only if an earlier one was known a PLAYER_MOVEMENT change event fires and a
     * LOCATION_CHANGE with both ends goes to the proxy.
     */
    method OnPlayerMove(player: BukkitPlayer, from: BukkitLocation, to: BukkitLocation, now: int)
      modifies this, api
      ensures api.membership == old(api.membership)
      ensures lastHealthValues == old(lastHealthValues) && warnings == old(warnings)
      ensures SameBlockColumn(from, to) ==>
        lastLocations == old(lastLocations) && outbox == old(outbox) && api.events == old(api.events)
      ensures !SameBlockColumn(from, to) ==> lastLocations == old(lastLocations)[player.uuid := LocationFrom(serverName, to)]
      ensures !SameBlockColumn(from, to) && player.uuid in old(lastLocations) ==>
        var previous := old(lastLocations)[player.uuid];
        var next := LocationFrom(serverName, to);
        && api.events == old(api.events) + [LocationChangeFired(player.uuid, Some(previous), next, Locations.PlayerMovement)]
        && outbox == old(outbox) + [ToProxy(player.uuid, CreateLocationChange(player.uuid, player.name, serverName,
                                                                             LocationData(previous, next), now))]
      ensures !SameBlockColumn(from, to) && player.uuid !in old(lastLocations) ==>
        api.events == old(api.events) && outbox == old(outbox)
    {
      if SameBlockColumn(from, to) {
        return;
      }
      var user := new BukkitUser.Adapt(player, now);
      var uuid := user.Uuid();
      var previous := if uuid in lastLocations then Some(lastLocations[uuid]) else None;
      var next := LocationFrom(serverName, to);
      lastLocations := lastLocations[uuid := next];
      if previous.Some? {
        api.Fire(LocationChangeFired(uuid, previous, next, Locations.PlayerMovement));
        outbox := outbox + [ToProxy(uuid, CreateLocationChange(uuid, user.Username(), serverName,
                                                               LocationData(previous.value, next), now))];
      }
    }

    /** `onPlayerJoin`: record the location and health, and ask the proxy for the player's statuses. */
    method OnPlayerJoin(player: BukkitPlayer, now: int)
      modifies this
      ensures lastLocations == old(lastLocations)[player.uuid := LocationFrom(serverName, player.location)]
      ensures lastHealthValues == old(lastHealthValues)[player.uuid := player.health]
      ensures outbox == old(outbox) + [ToProxy(player.uuid, CreateSyncRequest(player.uuid, player.name, serverName, now))]
      ensures warnings == old(warnings)
    {
      var user := new BukkitUser.Adapt(player, now);
      lastLocations := lastLocations[player.uuid := LocationFrom(serverName, player.location)];
      lastHealthValues := lastHealthValues[player.uuid := player.health];
      outbox := outbox + [ToProxy(user.Uuid(), CreateSyncRequest(user.Uuid(), user.Username(), serverName, now))];
    }

    /** `onPlayerQuit`: forget the player. */
    method OnPlayerQuit(uuid: Uuid)
      modifies this
      ensures lastLocations == old(lastLocations) - {uuid}
      ensures lastHealthValues == old(lastHealthValues) - {uuid}
      ensures outbox == old(outbox) && warnings == old(warnings)
    {
      lastLocations := lastLocations - {uuid};
      lastHealthValues := lastHealthValues - {uuid};
    }

    /**
     * `onEntityDamage`, with `entity` the damaged entity when it is a player: the previous health
     * is the recorded one (the current health if none), the new one the current health less the
     * final damage, never below zero; both are reported with the cause's name.
     */
    method OnEntityDamage(entity: Option<BukkitPlayer>, finalDamage: real, cause: string, now: int)
      modifies this, api
      ensures api.membership == old(api.membership)
      ensures lastLocations == old(lastLocations) && warnings == old(warnings)
      ensures entity.None? ==> lastHealthValues == old(lastHealthValues) && outbox == old(outbox) && api.events == old(api.events)
      ensures entity.Some? ==>
        var p := entity.value;
        var previous := if p.uuid in old(lastHealthValues) then old(lastHealthValues)[p.uuid] else p.health;
        var next := HealthAfterDamage(p.health, finalDamage);
        && lastHealthValues == old(lastHealthValues)[p.uuid := next]
        && api.events == old(api.events) + [HealthChangeNamed(p.uuid, previous, next, p.maxHealth, cause, None)]
        && outbox == old(outbox) + [ToProxy(p.uuid, CreateHealthChange(p.uuid, p.name, serverName, previous, next, p.maxHealth, cause, now))]
    {
      if entity.None? {
        return;
      }
      var p := entity.value;
      var previous := if p.uuid in lastHealthValues then lastHealthValues[p.uuid] else p.health;
      var next := HealthAfterDamage(p.health, finalDamage);
      lastHealthValues := lastHealthValues[p.uuid := next];
      var user := new BukkitUser.Adapt(p, now);
      api.Fire(HealthChangeNamed(user.Uuid(), previous, next, p.maxHealth, cause, None));
      outbox := outbox + [ToProxy(p.uuid, CreateHealthChange(user.Uuid(), user.Username(), serverName, previous, next, p.maxHealth, cause, now))];
    }

    /**
     * `onPlayerDeath`: the death event and a PLAYER_DEATH message carry the killer (if any) and
     * the death message (if any); the recorded health goes back to the maximum.
     */
    method OnPlayerDeath(player: BukkitPlayer, killer: Option<BukkitPlayer>, deathMessage: Option<string>, now: int)
      modifies this, api
      ensures api.membership == old(api.membership)
      ensures api.events == old(api.events) + [DeathBrief(player.uuid, if killer.Some? then Some(killer.value.uuid) else None, deathMessage)]
      ensures outbox == old(outbox) + [ToProxy(player.uuid, DeathReport(player.uuid, player.name, serverName,
                                               if killer.Some? then Some(killer.value.name) else None, deathMessage, now))]
      ensures lastHealthValues == old(lastHealthValues)[player.uuid := player.maxHealth]
      ensures lastLocations == old(lastLocations) && warnings == old(warnings)
    {
      var user := new BukkitUser.Adapt(player, now);
      var killerUser: Option<BukkitUser> := None;
      if killer.Some? {
        var k := new BukkitUser.Adapt(killer.value, now);
        killerUser := Some(k);
      }
      var killerUuid := if killerUser.Some? then Some(killerUser.value.Uuid()) else None;
      var killerName := if killerUser.Some? then Some(killerUser.value.Username()) else None;
      api.Fire(DeathBrief(user.Uuid(), killerUuid, deathMessage));
      outbox := outbox + [ToProxy(player.uuid, DeathReport(user.Uuid(), user.Username(), serverName, killerName, deathMessage, now))];
      lastHealthValues := lastHealthValues[player.uuid := player.maxHealth];
    }

    /** `onPlayerRespawn`: a respawn event and message, both "Player respawned", and the respawn point recorded. */
    method OnPlayerRespawn(player: BukkitPlayer, respawnLocation: BukkitLocation, now: int)
      modifies this, api
      ensures api.membership == old(api.membership)
      ensures api.events == old(api.events) + [RespawnBrief(player.uuid, RespawnedReason)]
      ensures outbox == old(outbox) + [ToProxy(player.uuid, RespawnReport(player.uuid, player.name, serverName, RespawnedReason, now))]
      ensures lastLocations == old(lastLocations)[player.uuid := LocationFrom(serverName, respawnLocation)]
      ensures lastHealthValues == old(lastHealthValues) && warnings == old(warnings)
    {
      var user := new BukkitUser.Adapt(player, now);
      api.Fire(RespawnBrief(user.Uuid(), RespawnedReason));
      outbox := outbox + [ToProxy(player.uuid, RespawnReport(user.Uuid(), user.Username(), serverName, RespawnedReason, now))];
      lastLocations := lastLocations[player.uuid := LocationFrom(serverName, respawnLocation)];
    }

    /** One status change the backend both fires locally and reports to the proxy. */
    method ReportStatus(player: BukkitPlayer, t: StatusType, previous: Value, next: Value, reason: string, now: int)
      modifies this, api
      ensures api.membership == old(api.membership)
      ensures api.events == old(api.events) + [StatusChangeFired(player.uuid, t, Some(previous), Some(next), reason, -1)]
      ensures outbox == old(outbox) + [ToProxy(player.uuid, StatusReport(player.uuid, player.name, serverName, t, next, reason, now))]
      ensures lastLocations == old(lastLocations) && lastHealthValues == old(lastHealthValues) && warnings == old(warnings)
    {
      var user := new BukkitUser.Adapt(player, now);
      api.Fire(StatusChangeFired(user.Uuid(), t, Some(previous), Some(next), reason, -1));
      outbox := outbox + [ToProxy(player.uuid, StatusReport(user.Uuid(), user.Username(), serverName, t, next, reason, now))];
    }

    /** `onPlayerGameModeChange`: GAME_MODE goes from the current mode's name to the new one's. */
    method OnPlayerGameModeChange(player: BukkitPlayer, newMode: BukkitGameMode, now: int)
      modifies this, api
      ensures api.membership == old(api.membership)
      ensures api.events == old(api.events) + [StatusChangeFired(player.uuid, StatusType.GameMode, Some(StrV(BukkitModeName(player.gameMode))),
                                                                 Some(StrV(BukkitModeName(newMode))), GameModeReason, -1)]
      ensures outbox == old(outbox) + [ToProxy(player.uuid, StatusReport(player.uuid, player.name, serverName, StatusType.GameMode,
                                                                         StrV(BukkitModeName(newMode)), GameModeReason, now))]
      ensures lastLocations == old(lastLocations) && lastHealthValues == old(lastHealthValues) && warnings == old(warnings)
    {
      ReportStatus(player, StatusType.GameMode, StrV(BukkitModeName(player.gameMode)), StrV(BukkitModeName(newMode)), GameModeReason, now);
    }

    /** `onPlayerToggleSneak`: SNEAKING goes from the opposite of the new state to the new state. */
    method OnPlayerToggleSneak(player: BukkitPlayer, sneaking: bool, now: int)
      modifies this, api
      ensures api.membership == old(api.membership)
      ensures api.events == old(api.events) + [StatusChangeFired(player.uuid, StatusType.Sneaking, Some(BoolV(!sneaking)), Some(BoolV(sneaking)), SneakReason, -1)]
      ensures outbox == old(outbox) + [ToProxy(player.uuid, StatusReport(player.uuid, player.name, serverName, StatusType.Sneaking,
                                                                         BoolV(sneaking), SneakReason, now))]
      ensures lastLocations == old(lastLocations) && lastHealthValues == old(lastHealthValues) && warnings == old(warnings)
    {
      ReportStatus(player, StatusType.Sneaking, BoolV(!sneaking), BoolV(sneaking), SneakReason, now);
    }

    /** `onPlayerToggleFlight`: FLYING goes from the opposite of the new state to the new state. */
    method OnPlayerToggleFlight(player: BukkitPlayer, flying: bool, now: int)
      modifies this, api
      ensures api.membership == old(api.membership)
      ensures api.events == old(api.events) + [StatusChangeFired(player.uuid, StatusType.Flying, Some(BoolV(!flying)), Some(BoolV(flying)), FlightReason, -1)]
      ensures outbox == old(outbox) + [ToProxy(player.uuid, StatusReport(player.uuid, player.name, serverName, StatusType.Flying,
                                                                         BoolV(flying), FlightReason, now))]
      ensures lastLocations == old(lastLocations) && lastHealthValues == old(lastHealthValues) && warnings == old(warnings)
    {
      ReportStatus(player, StatusType.Flying, BoolV(!flying), BoolV(flying), FlightReason, now);
    }

    /**
     * `onPluginMessageReceived`, with `decoded` the outcome of decoding the payload. Other
     * channels are ignored and a payload that does not decode is logged. A SYNC_REQUEST is
     * answered and a STATUS_UPDATE from the proxy is applied, as the two handlers below say;
     * `applied` is the user a status update was written to.
     */
    method OnPluginMessageReceived(channel: string, decoded: Result<PlayerStatusMessage>, serverPlayers: seq<BukkitPlayer>, now: int)
      returns (applied: Option<BukkitUser>)
      modifies this
      ensures lastLocations == old(lastLocations) && lastHealthValues == old(lastHealthValues)
      ensures channel != PlayerStatusChannel ==> outbox == old(outbox) && warnings == old(warnings) && applied.None?
      ensures channel == PlayerStatusChannel && decoded.Err? ==>
        outbox == old(outbox) && warnings == old(warnings) + [PluginMessageWarning] && applied.None?
      ensures channel == PlayerStatusChannel && decoded.Ok? ==>
        && warnings == old(warnings)
        && outbox == old(outbox) + (if decoded.value.messageType == SyncRequest then SyncAnswer(decoded.value, serverPlayers, now) else [])
        && (applied.Some? <==> decoded.value.messageType == StatusUpdate && ProxyUpdateTarget(decoded.value, serverPlayers).Some?)
        && (applied.Some? ==>
              && fresh(applied.value)
              && applied.value.player == ProxyUpdateTarget(decoded.value, serverPlayers).value
              && applied.value.statusCache == Update(DefaultStatuses(), FromKey(GetString(decoded.value, StatusTypeField).value),
                                                     decoded.value.data[ValueField]))
    {
      applied := None;
      if channel != PlayerStatusChannel {
        return;
      }
      if decoded.Err? {
        warnings := warnings + [PluginMessageWarning];
        return;
      }
      var m := decoded.value;
      if m.messageType == SyncRequest {
        HandleSyncRequest(m, serverPlayers, now);
      } else if m.messageType == StatusUpdate {
        applied := HandleStatusUpdateFromProxy(m, serverPlayers, now);
      }
    }

    /** The answer to a SYNC_REQUEST: nothing for a player not on this server, else the player's snapshot. */
    function SyncAnswer(m: PlayerStatusMessage, serverPlayers: seq<BukkitPlayer>, now: int): (r: seq<Outgoing>)
      reads this
      ensures |r| <= 1
      ensures r == [] <==> FindPlayer(serverPlayers, m.playerUuid).None?
      ensures forall i :: 0 <= i < |r| ==> r[i].ToProxy? && r[i].via == m.playerUuid && r[i].message.messageType == SyncResponse
      ensures r != [] ==> var p := FindPlayer(serverPlayers, m.playerUuid).value;
                          && r[0].message == CreateSyncResponse(p.uuid, p.name, serverName, Snapshot(p), now)
                          && r[0].message.playerUuid == m.playerUuid && r[0].message.data == Snapshot(p)
    {
      match FindPlayer(serverPlayers, m.playerUuid)
      case None => []
      case Some(p) => [ToProxy(p.uuid, CreateSyncResponse(p.uuid, p.name, serverName, Snapshot(p), now))]
    }

    /** `handleSyncRequest`: answer with the player's live readings. */
    method HandleSyncRequest(m: PlayerStatusMessage, serverPlayers: seq<BukkitPlayer>, now: int)
      modifies this
      ensures outbox == old(outbox) + SyncAnswer(m, serverPlayers, now)
      ensures lastLocations == old(lastLocations) && lastHealthValues == old(lastHealthValues) && warnings == old(warnings)
    {
      var found := FindPlayer(serverPlayers, m.playerUuid);
      if found.Some? {
        var p := found.value;
        var user := new BukkitUser.Adapt(p, now);
        outbox := outbox + [ToProxy(p.uuid, CreateSyncResponse(user.Uuid(), user.Username(), serverName, Snapshot(p), now))];
      }
    }

    /**
     * `handleStatusUpdateFromProxy`: for a player on this server and an update naming a type and
     * a value (the reason is not required), the value is written through `updateStatus` to a user
     * adapted for the purpose, which nothing else holds.
     */
    method HandleStatusUpdateFromProxy(m: PlayerStatusMessage, serverPlayers: seq<BukkitPlayer>, now: int)
      returns (applied: Option<BukkitUser>)
      ensures applied.Some? <==> ProxyUpdateTarget(m, serverPlayers).Some?
      ensures applied.Some? ==>
              && fresh(applied.value)
              && applied.value.player == ProxyUpdateTarget(m, serverPlayers).value
              && applied.value.statusCache == Update(DefaultStatuses(), FromKey(GetString(m, StatusTypeField).value), m.data[ValueField])
    {
      applied := None;
      var found := FindPlayer(serverPlayers, m.playerUuid);
      if found.None? {
        return;
      }
      var user := new BukkitUser.Adapt(found.value, now);
      var key := GetString(m, StatusTypeField);
      if key.Some? && ValueField in m.data {
        user.UpdateStatus(FromKey(key.value), m.data[ValueField]);
        applied := Some(user);
      }
    }
  }

  /** The player a proxy STATUS_UPDATE is applied for: one on this server, when the message names a type and a value. */
  function ProxyUpdateTarget(m: PlayerStatusMessage, serverPlayers: seq<BukkitPlayer>): (r: Option<BukkitPlayer>)
    ensures r.Some? <==> FindPlayer(serverPlayers, m.playerUuid).Some? && GetString(m, StatusTypeField).Some? && ValueField in m.data
    ensures r.Some? ==> r.value.uuid == m.playerUuid
  {
    if GetString(m, StatusTypeField).Some? && ValueField in m.data then FindPlayer(serverPlayers, m.playerUuid) else None
  }
}
