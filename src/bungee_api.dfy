/**
 * `BungeeHuskChatExtendedAPI`: the extended API on a BungeeCord proxy. It relays status exactly
 * like the Velocity proxy, but fires the reason-string overloads of the health, death and
 * respawn events, lets listeners cancel a status change, and dereferences the player's server
 * without a null check when asked to sync.
 */
module BungeeApi {
  import opened Wrappers
  import opened Values
  import opened StatusTypes
  import opened StatusCache
  import opened Messages
  import opened Events
  import opened Transport
  import opened OnlineUsers
  import opened ProxyRelay
  import ExtendedApi
  import B = BungeeUsers

  /** A scheduled expiry: after `delayMillis`, drop `statusType` from `user` again. */
  datatype Expiry = Expiry(user: B.BungeeUser, statusType: StatusType, value: Value, delayMillis: int)

  const DefaultRespawnReason: string := "Player respawned"

  /**
   * The events the BungeeCord handler fires for a backend message about `p`, whose status cache
   * was `before`: a status change for a BungeeCord user's complete STATUS_UPDATE, a health change
   * carrying the message's own reason for any complete HEALTH_CHANGE, a death with the named
   * killer if online and the message's text or "Player died", a respawn with the message's reason
   * or "Player respawned"; nothing otherwise.
   */
  function IncomingEvents(online: seq<OnlineUser>, p: OnlineUser, m: PlayerStatusMessage, before: Cache): (r: seq<Event>)
    ensures |r| <= 1
    ensures r == [] <==>
      || (m.messageType == StatusUpdate && (ReadStatusUpdate(m).None? || !p.OnBungee?))
      || (m.messageType == HealthChange && ReadHealthChange(m).None?)
      || m.messageType in {LocationChange, CommandExecution, SyncRequest, SyncResponse}
    ensures forall i :: 0 <= i < |r| ==> r[i].player == UuidOf(p)
  {
    match m.messageType
    case StatusUpdate => StatusChangeEvents(p, m, before)
    case HealthChange => HealthChangeEvents(p, m)
    case PlayerDeath =>
      [DeathBrief(UuidOf(p), KillerOf(online, m), Some(GetString(m, DeathMessageField).GetOr(DefaultDeathMessage)))]
    case PlayerRespawn => [RespawnBrief(UuidOf(p), GetString(m, ReasonField).GetOr(DefaultRespawnReason))]
    case _ => []
  }

  /** The STATUS_UPDATE case: a status change, for a BungeeCord user and a complete message only. */
  function StatusChangeEvents(p: OnlineUser, m: PlayerStatusMessage, before: Cache): (r: seq<Event>)
    ensures r == [] <==> ReadStatusUpdate(m).None? || !p.OnBungee?
    ensures |r| <= 1 && forall i :: 0 <= i < |r| ==> r[i].player == UuidOf(p)
  {
    match ReadStatusUpdate(m)
    case Some(f) =>
      if p.OnBungee? then [StatusChangeFired(UuidOf(p), f.statusType, EntryAt(before, f.statusType), Some(f.value), f.reason, -1)]
      else []
    case None => []
  }

  /** The HEALTH_CHANGE case: a health change carrying the message's reason, for a complete message only. */
  function HealthChangeEvents(p: OnlineUser, m: PlayerStatusMessage): (r: seq<Event>)
    ensures r == [] <==> ReadHealthChange(m).None?
    ensures |r| <= 1 && forall i :: 0 <= i < |r| ==> r[i].player == UuidOf(p)
  {
    match ReadHealthChange(m)
    case Some(h) => [HealthChangeNamed(UuidOf(p), h.previousHealth, h.newHealth, h.maxHealth, h.reason, None)]
    case None => []
  }

  /**
   * A HEALTH_CHANGE a backend built keeps its reason text all the way into the event the proxy
   * fires, where the Velocity proxy reports OTHER instead.
   */
  lemma {:induction false} HealthReasonReachesEvent(online: seq<OnlineUser>, p: OnlineUser, before: Cache, uuid: Uuid, name: string,
                                                    server: string, prev: real, n: real, x: real, reason: string, now: int)
    ensures IncomingEvents(online, p, CreateHealthChange(uuid, name, server, prev, n, x, reason, now), before)
            == [HealthChangeNamed(UuidOf(p), prev, n, x, reason, None)]
  {
    HealthChangeRoundTrip(uuid, name, server, prev, n, x, reason, now);
  }

  /** A respawn message without a reason text is reported as "Player respawned". */
  lemma RespawnReasonDefault(online: seq<OnlineUser>, p: OnlineUser, m: PlayerStatusMessage, before: Cache)
    requires m.messageType == PlayerRespawn && ReasonField !in m.data
    ensures IncomingEvents(online, p, m, before) == [RespawnBrief(UuidOf(p), DefaultRespawnReason)]
  {
  }

  class BungeeExtendedApi {
    /** The platform-independent half of the API, with its channel membership and event log. */
    const api: ExtendedApi.HuskChatExtendedApi
    /** `proxyServer.getServers().values()`, by name. */
    const servers: seq<string>
    /** Plugin messages sent so far, in order. */
    var outbox: seq<Outgoing>
    /** Expiry tasks scheduled and not yet run. */
    var expiries: seq<Expiry>

    constructor (api: ExtendedApi.HuskChatExtendedApi, servers: seq<string>)
      ensures this.api == api && this.servers == servers
      ensures outbox == [] && expiries == []
    {
      this.api := api;
      this.servers := servers;
      outbox := [];
      expiries := [];
    }

    /** `broadcastStatusUpdate`: one send per server, in the servers' order; none for a null value. */
    method BroadcastStatusUpdate(player: OnlineUser, t: StatusType, value: Option<Value>, reason: string, now: int)
      modifies this
      ensures outbox == old(outbox) + StatusBroadcast(servers, player, t, value, reason, now)
      ensures expiries == old(expiries)
    {
      var r := CreateStatusUpdate(UuidOf(player), NameOf(player), ServerNameOf(player), t, value, reason, now);
      if r.Err? {
        return;
      }
      var m := r.value;
      var i := 0;
      while i < |servers|
        invariant 0 <= i <= |servers|
        invariant outbox == old(outbox) + BroadcastTo(servers[..i], m)
        invariant expiries == old(expiries)
      {
        BroadcastToSnoc(servers[..i], servers[i], m);
        assert servers[..i + 1] == servers[..i] + [servers[i]];
        outbox := outbox + [ToServer(servers[i], m)];
        i := i + 1;
      }
      assert servers[..i] == servers;
    }

    /**
     * `updatePlayerStatusInternal`: for a BungeeCord user, write the cache, broadcast with reason
     * "API call", and schedule an expiry when `duration` is positive; any other user is ignored.
     */
    method UpdatePlayerStatusInternal(player: OnlineUser, t: StatusType, v: Value, duration: int, now: int)
      requires Valid(player)
      modifies this, Footprint(player)
      ensures Valid(player)
      ensures player.OnBungee? ==>
        && player.bungee.statusCache == Update(old(player.bungee.statusCache), t, v)
        && outbox == old(outbox) + StatusBroadcast(servers, player, t, Some(v), ApiCallReason, now)
        && expiries == old(expiries) + (if duration > 0 then [Expiry(player.bungee, t, v, duration)] else [])
      ensures !player.OnBungee? ==> unchanged(Footprint(player)) && outbox == old(outbox) && expiries == old(expiries)
    {
      if player.OnBungee? {
        var user := player.bungee;
        user.UpdateStatus(t, v);
        BroadcastStatusUpdate(player, t, Some(v), ApiCallReason, now);
        if duration > 0 {
          expiries := expiries + [Expiry(user, t, v, duration)];
        }
      }
    }

    /**
     * `updatePlayerStatus`, with the listeners' verdict on the change event given as `cancelled`:
     * the event fires with the previous value, and only an uncancelled change reaches the cache.
     */
    method UpdatePlayerStatus(player: OnlineUser, t: StatusType, v: Value, reason: string, duration: int,
                              cancelled: bool, now: int)
      returns (updated: bool)
      requires Valid(player)
      modifies this, api, Footprint(player)
      ensures updated == !cancelled
      ensures Valid(player)
      ensures api.events == old(api.events) + [StatusChangeFired(UuidOf(player), t, old(GetStatus(player, t)), Some(v), reason, duration)]
      ensures api.membership == old(api.membership)
      ensures updated && player.OnBungee? ==>
        && player.bungee.statusCache == Update(old(player.bungee.statusCache), t, v)
        && outbox == old(outbox) + StatusBroadcast(servers, player, t, Some(v), ApiCallReason, now)
        && expiries == old(expiries) + (if duration > 0 then [Expiry(player.bungee, t, v, duration)] else [])
      ensures !updated || !player.OnBungee? ==> unchanged(Footprint(player)) && outbox == old(outbox) && expiries == old(expiries)
    {
      var proceed := api.StatusChangeGate(player, t, v, reason, duration, cancelled);
      if proceed {
        UpdatePlayerStatusInternal(player, t, v, duration, now);
      }
      updated := proceed;
    }

    /**
     * The scheduled task of expiry `k`: the status is removed and the change event (from the
     * temporary value to null) fires, but the broadcast of a null value throws inside
     * `createStatusUpdate`, so the backends are never told.
     */
    method RunExpiry(k: nat, now: int)
      requires k < |expiries| && expiries[k].user.Valid()
      modifies this, api, expiries[k].user
      ensures var e := old(expiries[k]);
              && e.user.statusCache == Remove(old(e.user.statusCache), e.statusType) && e.user.Valid()
              && api.events == old(api.events) + [StatusChangeFired(e.user.Uuid(), e.statusType, Some(e.value), None, ExpiredReason, -1)]
      ensures api.membership == old(api.membership)
      ensures outbox == old(outbox)
      ensures expiries == old(expiries[..k] + expiries[k + 1..])
    {
      var e := expiries[k];
      e.user.RemoveStatus(e.statusType);
      api.Fire(StatusChangeFired(e.user.Uuid(), e.statusType, Some(e.value), None, ExpiredReason, -1));
      BroadcastStatusUpdate(OnBungee(e.user), e.statusType, None, ExpiredReason, now);
      expiries := expiries[..k] + expiries[k + 1..];
    }

    /**
     * `handlePlayerStatusMessage`, returning the online user the message is about (the first with
     * its UUID). A message about a player who is not online is dropped; otherwise the player's cache
     * (for a BungeeCord user) and the event log change as `RelayedCache`, `SyncedFrom` and
     * `IncomingEvents` say, and no other user is touched.
     */
    method HandlePlayerStatusMessage(serverName: string, m: PlayerStatusMessage, online: seq<OnlineUser>)
      returns (found: Option<OnlineUser>)
      requires AllValid(online)
      modifies api, Objects(online)
      ensures found == FindByUuid(online, m.playerUuid)
      ensures AllValid(online)
      ensures api.membership == old(api.membership)
      ensures found.None? ==> api.events == old(api.events) && unchanged(Objects(online))
      ensures found.Some? ==> unchanged(Objects(online) - Footprint(found.value))
      ensures found.Some? ==> api.events == old(api.events) + IncomingEvents(online, found.value, m,
                                if found.value.OnBungee? then old(found.value.bungee.statusCache) else map[])
      ensures found.Some? && found.value.OnBungee? && m.messageType != SyncResponse ==>
                found.value.bungee.statusCache == RelayedCache(old(found.value.bungee.statusCache), m)
      ensures found.Some? && found.value.OnBungee? && m.messageType == SyncResponse ==>
                SyncedFrom(old(found.value.bungee.statusCache), m.data, m.data.Keys, found.value.bungee.statusCache)
      ensures found.Some? && !found.value.OnBungee? ==> unchanged(Footprint(found.value))
    {
      found := FindByUuid(online, m.playerUuid);
      if found.None? {
        return;
      }
      var p := found.value;
      MemberValid(online, p);
      HandleFor(p, m, online);
    }

    /** The per-type dispatch of `handlePlayerStatusMessage` for the player the message is about. */
    method HandleFor(p: OnlineUser, m: PlayerStatusMessage, online: seq<OnlineUser>)
      requires Valid(p)
      modifies api, Footprint(p)
      ensures Valid(p)
      ensures api.membership == old(api.membership)
      ensures api.events == old(api.events) + IncomingEvents(online, p, m, if p.OnBungee? then old(p.bungee.statusCache) else map[])
      ensures p.OnBungee? && m.messageType != SyncResponse ==> p.bungee.statusCache == RelayedCache(old(p.bungee.statusCache), m)
      ensures p.OnBungee? && m.messageType == SyncResponse ==> SyncedFrom(old(p.bungee.statusCache), m.data, m.data.Keys, p.bungee.statusCache)
      ensures !p.OnBungee? ==> unchanged(Footprint(p))
    {
      match m.messageType {
        case StatusUpdate => HandleStatusUpdate(p, m, online);
        case HealthChange => HandleHealthChange(p, m, online);
        case PlayerDeath =>
          api.Fire(DeathBrief(UuidOf(p), KillerOf(online, m), Some(GetString(m, DeathMessageField).GetOr(DefaultDeathMessage))));
        case PlayerRespawn =>
          api.Fire(RespawnBrief(UuidOf(p), GetString(m, ReasonField).GetOr(DefaultRespawnReason)));
        case SyncResponse =>
          if p.OnBungee? {
            p.bungee.SyncFromBackend(m.data);
          }
        case _ =>
      }
    }

    /** `handleStatusUpdate`: a complete update is written to a BungeeCord user and reported with the cached previous value. */
    method HandleStatusUpdate(p: OnlineUser, m: PlayerStatusMessage, online: seq<OnlineUser>)
      requires Valid(p) && m.messageType == StatusUpdate
      modifies api, Footprint(p)
      ensures Valid(p)
      ensures api.membership == old(api.membership)
      ensures api.events == old(api.events) + IncomingEvents(online, p, m, if p.OnBungee? then old(p.bungee.statusCache) else map[])
      ensures p.OnBungee? ==> p.bungee.statusCache == RelayedCache(old(p.bungee.statusCache), m)
      ensures !p.OnBungee? ==> unchanged(Footprint(p))
    {
      if p.OnBungee? {
        ghost var before := p.bungee.statusCache;
        match ReadStatusUpdate(m) {
          case Some(f) =>
            var previous := p.bungee.GetStatus(f.statusType);
            p.bungee.UpdateStatus(f.statusType, f.value);
            api.Fire(StatusChangeFired(UuidOf(p), f.statusType, previous, Some(f.value), f.reason, -1));
            assert IncomingEvents(online, p, m, before) == [StatusChangeFired(UuidOf(p), f.statusType, previous, Some(f.value), f.reason, -1)];
          case None =>
        }
      }
    }

    /** `handleHealthChange`: a complete change writes HEALTH and MAX_HEALTH for a BungeeCord user and fires for anyone. */
    method HandleHealthChange(p: OnlineUser, m: PlayerStatusMessage, online: seq<OnlineUser>)
      requires Valid(p) && m.messageType == HealthChange
      modifies api, Footprint(p)
      ensures Valid(p)
      ensures api.membership == old(api.membership)
      ensures api.events == old(api.events) + IncomingEvents(online, p, m, if p.OnBungee? then old(p.bungee.statusCache) else map[])
      ensures p.OnBungee? ==> p.bungee.statusCache == RelayedCache(old(p.bungee.statusCache), m)
      ensures !p.OnBungee? ==> unchanged(Footprint(p))
    {
      match ReadHealthChange(m) {
        case Some(h) =>
          if p.OnBungee? {
            p.bungee.UpdateStatus(StatusType.Health, DoubleV(h.newHealth));
            p.bungee.UpdateStatus(StatusType.MaxHealth, DoubleV(h.maxHealth));
          }
          api.Fire(HealthChangeNamed(UuidOf(p), h.previousHealth, h.newHealth, h.maxHealth, h.reason, None));
        case None =>
      }
    }

    /**
     * `requestPlayerStatusSync`: false for a non-BungeeCord user; a NullPointerException for one
     * that is not connected to a server; otherwise a SYNC_REQUEST goes to that server and the
     * answer is true.
     */
    method RequestPlayerStatusSync(player: OnlineUser, now: int) returns (r: Result<bool>)
      modifies this
      ensures r == Err(NullPointer) <==> player.OnBungee? && player.bungee.player.server.None?
      ensures r == Ok(false) <==> !player.OnBungee?
      ensures r == Ok(true) ==> var s := player.bungee.player.server.value;
                                outbox == old(outbox) + [ToServer(s, CreateSyncRequest(UuidOf(player), NameOf(player), s, now))]
      ensures r != Ok(true) ==> outbox == old(outbox)
      ensures expiries == old(expiries)
    {
      if !player.OnBungee? {
        return Ok(false);
      }
      match player.bungee.player.server {
        case None =>
          r := Err(NullPointer);
        case Some(s) =>
          outbox := outbox + [ToServer(s, CreateSyncRequest(UuidOf(player), NameOf(player), s, now))];
          r := Ok(true);
      }
    }
  }
}
