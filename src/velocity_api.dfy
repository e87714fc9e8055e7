/**
 * `VelocityHuskChatExtendedAPI`: the extended API on a Velocity proxy. Status writes go to the
 * proxy's own cache and out to every backend; backend messages about a player come back in
 * through `HandlePlayerStatusMessage`. Scheduled expiries are kept as a list of pending tasks
 * that the scheduler runs later through `RunExpiry`.
 */
module VelocityApi {
  import opened Wrappers
  import opened Values
  import opened StatusTypes
  import opened StatusCache
  import opened Commands
  import opened Messages
  import opened Events
  import opened Transport
  import opened OnlineUsers
  import opened ProxyRelay
  import Locations
  import ProxyRegions
  import VelocityEvents
  import ExtendedApi
  import V = VelocityUsers

  /** A scheduled expiry: after `delayMillis`, drop `statusType` from `user` again. */
  datatype Expiry = Expiry(user: V.VelocityUser, statusType: StatusType, value: Value, delayMillis: int)

  /**
   * `VelocityPlayerLocation.from("unknown", "unknown", 0, 0, 0, 0, 0)`, the location the proxy
   * puts on relayed death and respawn events.
   */
  const UnknownLocation: Locations.PlayerLocation :=
    Locations.PlayerLocation(Locations.DefaultLocation, "unknown", "unknown", 0.0, 0.0, 0.0, 0.0, 0.0)

  /**
   * The events the Velocity handler fires for a backend message about `p`, whose status cache
   * was `before`: a status change for a Velocity user's complete STATUS_UPDATE, a health change
   * (reason OTHER, no damager) for any complete HEALTH_CHANGE, a death with the message's text
   * or "Player died" and the named killer if online, a NORMAL respawn; nothing otherwise.
   */
  function IncomingEvents(online: seq<OnlineUser>, p: OnlineUser, m: PlayerStatusMessage, before: Cache): (r: seq<Event>)
    ensures |r| <= 1
    ensures r == [] <==>
      || (m.messageType == StatusUpdate && (ReadStatusUpdate(m).None? || !p.OnVelocity?))
      || (m.messageType == HealthChange && ReadHealthChange(m).None?)
      || m.messageType in {LocationChange, CommandExecution, SyncRequest, SyncResponse}
    ensures forall i :: 0 <= i < |r| ==> r[i].player == UuidOf(p)
  {
    var uuid := UuidOf(p);
    match m.messageType
    case StatusUpdate =>
      (match ReadStatusUpdate(m)
       case Some(f) =>
         if p.OnVelocity? then [StatusChangeFired(uuid, f.statusType, EntryAt(before, f.statusType), Some(f.value), f.reason, -1)]
         else []
       case None => [])
    case HealthChange =>
      (match ReadHealthChange(m)
       case Some(h) => [HealthChangeFired(uuid, h.previousHealth, h.newHealth, h.maxHealth, OtherHealth, None)]
       case None => [])
    case PlayerDeath =>
      [DeathFired(uuid, GetString(m, DeathMessageField).GetOr(DefaultDeathMessage), OtherDeath, KillerOf(online, m), UnknownLocation)]
    case PlayerRespawn => [RespawnFired(uuid, UnknownLocation, Normal)]
    case _ => []
  }

  /** A complete status update for a Velocity user fires one change from the cached entry to the new value. */
  lemma StatusUpdateFires(online: seq<OnlineUser>, p: OnlineUser, m: PlayerStatusMessage, before: Cache, f: StatusUpdateFields)
    requires m.messageType == StatusUpdate && p.OnVelocity? && ReadStatusUpdate(m) == Some(f)
    ensures IncomingEvents(online, p, m, before)
            == [StatusChangeFired(UuidOf(p), f.statusType, EntryAt(before, f.statusType), Some(f.value), f.reason, -1)]
  {
  }

  /** A death message without a text is reported as "Player died"; one with a text keeps it. */
  lemma DeathMessageDefault(online: seq<OnlineUser>, p: OnlineUser, m: PlayerStatusMessage, before: Cache)
    requires m.messageType == PlayerDeath
    ensures IncomingEvents(online, p, m, before)[0].deathMessage
            == (if GetString(m, DeathMessageField).Some? then GetString(m, DeathMessageField).value else DefaultDeathMessage)
  {
  }

  /**
   * A status update relayed from a backend to a Velocity user fires a change event whose previous
   * value is what the user had cached and whose new value is the one the backend sent.
   */
  lemma {:induction false} RelayedUpdateReportsCachedPrevious(online: seq<OnlineUser>, v: V.VelocityUser, before: Cache,
                                                              uuid: Uuid, name: string, server: string,
                                                              t: StatusType, value: Value, reason: string, now: int)
    ensures var m := CreateStatusUpdate(uuid, name, server, t, Some(value), reason, now).value;
            IncomingEvents(online, OnVelocity(v), m, before)
              == [StatusChangeFired(v.Uuid(), t, EntryAt(before, t), Some(value), reason, -1)]
  {
    StatusUpdateRoundTrip(uuid, name, server, t, value, reason, now);
  }

  class VelocityExtendedApi {
    /** The platform-independent half of the API, with its channel membership and event log. */
    const api: ExtendedApi.HuskChatExtendedApi
    /** `proxyServer.getAllServers()`, by name. */
    const servers: seq<string>
    /** Plugin messages sent so far, in order. */
    var outbox: seq<Outgoing>
    /** Expiry tasks scheduled and not yet run. */
    var expiries: seq<Expiry>

    constructor (api: ExtendedApi.HuskChatExtendedApi, servers: seq<string>)
      ensures this.api == api && this.servers == servers
      ensures outbox == [] && expiries == []
    {
      this.api := api;
      this.servers := servers;
      outbox := [];
      expiries := [];
    }

    /** `broadcastStatusUpdate`: one send per server, in the servers' order; none for a null value. */
    method BroadcastStatusUpdate(player: OnlineUser, t: StatusType, value: Option<Value>, reason: string, now: int)
      modifies this
      ensures outbox == old(outbox) + StatusBroadcast(servers, player, t, value, reason, now)
      ensures expiries == old(expiries)
    {
      var r := CreateStatusUpdate(UuidOf(player), NameOf(player), ServerNameOf(player), t, value, reason, now);
      if r.Err? {
        return;
      }
      var m := r.value;
      var i := 0;
      while i < |servers|
        invariant 0 <= i <= |servers|
        invariant outbox == old(outbox) + BroadcastTo(servers[..i], m)
        invariant expiries == old(expiries)
      {
        BroadcastToSnoc(servers[..i], servers[i], m);
        assert servers[..i + 1] == servers[..i] + [servers[i]];
        outbox := outbox + [ToServer(servers[i], m)];
        i := i + 1;
      }
      assert servers[..i] == servers;
    }

    /**
     * `updatePlayerStatusInternal`: for a Velocity user, write the cache, broadcast with reason
     * "API call", and schedule an expiry when `duration` is positive; any other user is ignored.
     */
    method UpdatePlayerStatusInternal(player: OnlineUser, t: StatusType, v: Value, duration: int, now: int)
      requires Valid(player)
      modifies this, Footprint(player)
      ensures Valid(player)
      ensures player.OnVelocity? ==>
        && player.velocity.statusCache == Update(old(player.velocity.statusCache), t, v)
        && outbox == old(outbox) + StatusBroadcast(servers, player, t, Some(v), ApiCallReason, now)
        && expiries == old(expiries) + (if duration > 0 then [Expiry(player.velocity, t, v, duration)] else [])
      ensures !player.OnVelocity? ==> unchanged(Footprint(player)) && outbox == old(outbox) && expiries == old(expiries)
    {
      if player.OnVelocity? {
        var user := player.velocity;
        user.UpdateStatus(t, v);
        BroadcastStatusUpdate(player, t, Some(v), ApiCallReason, now);
        if duration > 0 {
          expiries := expiries + [Expiry(user, t, v, duration)];
        }
      }
    }

    /**
     * `updatePlayerStatus`: the change event fires with the previous value; Velocity's stub event
     * is never cancelled, so the platform update always follows and the result is always true.
     */
    method UpdatePlayerStatus(player: OnlineUser, t: StatusType, v: Value, reason: string, duration: int, now: int)
      returns (updated: bool)
      requires Valid(player)
      modifies this, api, Footprint(player)
      ensures updated
      ensures Valid(player)
      ensures api.events == old(api.events) + [StatusChangeFired(UuidOf(player), t, old(GetStatus(player, t)), Some(v), reason, duration)]
      ensures api.membership == old(api.membership)
      ensures player.OnVelocity? ==>
        && player.velocity.statusCache == Update(old(player.velocity.statusCache), t, v)
        && outbox == old(outbox) + StatusBroadcast(servers, player, t, Some(v), ApiCallReason, now)
        && expiries == old(expiries) + (if duration > 0 then [Expiry(player.velocity, t, v, duration)] else [])
      ensures !player.OnVelocity? ==> unchanged(Footprint(player)) && outbox == old(outbox) && expiries == old(expiries)
    {
      var stub := VelocityEvents.StatusStub(UuidOf(player), t, GetStatus(player, t), v, reason, duration);
      var proceed := api.StatusChangeGate(player, t, v, reason, duration, stub.IsCancelled());
      if proceed {
        UpdatePlayerStatusInternal(player, t, v, duration, now);
      }
      updated := proceed;
    }

    /**
     * The scheduled task of expiry `k`: the status is removed and the change event (from the
     * temporary value to null) fires, but the broadcast of a null value throws inside
     * `createStatusUpdate`, so the backends are never told.
     */
    method RunExpiry(k: nat, now: int)
      requires k < |expiries| && expiries[k].user.Valid()
      modifies this, api, expiries[k].user
      ensures var e := old(expiries[k]);
              && e.user.statusCache == Remove(old(e.user.statusCache), e.statusType) && e.user.Valid()
              && api.events == old(api.events) + [StatusChangeFired(e.user.Uuid(), e.statusType, Some(e.value), None, ExpiredReason, -1)]
      ensures api.membership == old(api.membership)
      ensures outbox == old(outbox)
      ensures expiries == old(expiries[..k] + expiries[k + 1..])
    {
      var e := expiries[k];
      e.user.RemoveStatus(e.statusType);
      api.Fire(StatusChangeFired(e.user.Uuid(), e.statusType, Some(e.value), None, ExpiredReason, -1));
      BroadcastStatusUpdate(OnVelocity(e.user), e.statusType, None, ExpiredReason, now);
      expiries := expiries[..k] + expiries[k + 1..];
    }

    /**
     * `handlePlayerStatusMessage`, returning the online user the message is about (the first with
     * its UUID). A message about a player who is not online is dropped; otherwise the player's cache (for a Velocity user) and the event log change as `RelayedCache`,
     * `SyncedFrom` and `IncomingEvents` say, and no other user is touched.
     */
    method HandlePlayerStatusMessage(serverName: string, m: PlayerStatusMessage, online: seq<OnlineUser>)
      returns (found: Option<OnlineUser>)
      requires AllValid(online)
      modifies api, Objects(online)
      ensures found == FindByUuid(online, m.playerUuid)
      ensures AllValid(online)
      ensures api.membership == old(api.membership)
      ensures found.None? ==> api.events == old(api.events) && unchanged(Objects(online))
      ensures found.Some? ==> unchanged(Objects(online) - Footprint(found.value))
      ensures found.Some? ==> api.events == old(api.events) + IncomingEvents(online, found.value, m,
                                if found.value.OnVelocity? then old(found.value.velocity.statusCache) else map[])
      ensures found.Some? && found.value.OnVelocity? && m.messageType != SyncResponse ==>
                found.value.velocity.statusCache == RelayedCache(old(found.value.velocity.statusCache), m)
      ensures found.Some? && found.value.OnVelocity? && m.messageType == SyncResponse ==>
                SyncedFrom(old(found.value.velocity.statusCache), m.data, m.data.Keys, found.value.velocity.statusCache)
      ensures found.Some? && !found.value.OnVelocity? ==> unchanged(Footprint(found.value))
    {
      found := FindByUuid(online, m.playerUuid);
      if found.None? {
        return;
      }
      var p := found.value;
      MemberValid(online, p);
      HandleFor(p, m, online);
    }

    /** The per-type dispatch of `handlePlayerStatusMessage` for the player the message is about. */
    method HandleFor(p: OnlineUser, m: PlayerStatusMessage, online: seq<OnlineUser>)
      requires Valid(p)
      modifies api, Footprint(p)
      ensures Valid(p)
      ensures api.membership == old(api.membership)
      ensures api.events == old(api.events) + IncomingEvents(online, p, m, if p.OnVelocity? then old(p.velocity.statusCache) else map[])
      ensures p.OnVelocity? && m.messageType != SyncResponse ==> p.velocity.statusCache == RelayedCache(old(p.velocity.statusCache), m)
      ensures p.OnVelocity? && m.messageType == SyncResponse ==> SyncedFrom(old(p.velocity.statusCache), m.data, m.data.Keys, p.velocity.statusCache)
      ensures !p.OnVelocity? ==> unchanged(Footprint(p))
    {
      match m.messageType {
        case StatusUpdate => HandleStatusUpdate(p, m, online);
        case HealthChange => HandleHealthChange(p, m, online);
        case PlayerDeath =>
          api.Fire(DeathFired(UuidOf(p), GetString(m, DeathMessageField).GetOr(DefaultDeathMessage), OtherDeath,
                              KillerOf(online, m), UnknownLocation));
        case PlayerRespawn =>
          api.Fire(RespawnFired(UuidOf(p), UnknownLocation, Normal));
        case SyncResponse =>
          if p.OnVelocity? {
            p.velocity.SyncFromBackend(m.data);
          }
        case _ =>
      }
    }

    /** `handleStatusUpdate`: a complete update is written to a Velocity user and reported with the cached previous value. */
    method HandleStatusUpdate(p: OnlineUser, m: PlayerStatusMessage, online: seq<OnlineUser>)
      requires Valid(p) && m.messageType == StatusUpdate
      modifies api, Footprint(p)
      ensures Valid(p)
      ensures api.membership == old(api.membership)
      ensures api.events == old(api.events) + IncomingEvents(online, p, m, if p.OnVelocity? then old(p.velocity.statusCache) else map[])
      ensures p.OnVelocity? ==> p.velocity.statusCache == RelayedCache(old(p.velocity.statusCache), m)
      ensures !p.OnVelocity? ==> unchanged(Footprint(p))
    {
      if p.OnVelocity? {
        var u := p.velocity;
        ghost var before := u.statusCache;
        var read := ReadStatusUpdate(m);
        if read.Some? {
          var f := read.value;
          var previous := u.GetStatus(f.statusType);
          u.UpdateStatus(f.statusType, f.value);
          StatusUpdateFires(online, p, m, before, f);
          api.Fire(StatusChangeFired(UuidOf(p), f.statusType, previous, Some(f.value), f.reason, -1));
        }
      }
    }

    /** `handleHealthChange`: a complete change writes HEALTH and MAX_HEALTH for a Velocity user and fires for anyone. */
    method HandleHealthChange(p: OnlineUser, m: PlayerStatusMessage, online: seq<OnlineUser>)
      requires Valid(p) && m.messageType == HealthChange
      modifies api, Footprint(p)
      ensures Valid(p)
      ensures api.membership == old(api.membership)
      ensures api.events == old(api.events) + IncomingEvents(online, p, m, if p.OnVelocity? then old(p.velocity.statusCache) else map[])
      ensures p.OnVelocity? ==> p.velocity.statusCache == RelayedCache(old(p.velocity.statusCache), m)
      ensures !p.OnVelocity? ==> unchanged(Footprint(p))
    {
      match ReadHealthChange(m) {
        case Some(h) =>
          if p.OnVelocity? {
            p.velocity.UpdateStatus(StatusType.Health, DoubleV(h.newHealth));
            p.velocity.UpdateStatus(StatusType.MaxHealth, DoubleV(h.maxHealth));
          }
          api.Fire(HealthChangeFired(UuidOf(p), h.previousHealth, h.newHealth, h.maxHealth, OtherHealth, None));
        case None =>
      }
    }

    /**
     * `requestPlayerStatusSync`: false for a non-Velocity user or one with no current server;
     * otherwise a SYNC_REQUEST goes to that server and the answer is true.
     */
    method RequestPlayerStatusSync(player: OnlineUser, now: int) returns (sent: bool)
      modifies this
      ensures sent <==> player.OnVelocity? && player.velocity.player.currentServer.Some?
      ensures sent ==> var s := player.velocity.player.currentServer.value;
                       outbox == old(outbox) + [ToServer(s, CreateSyncRequest(UuidOf(player), NameOf(player), s, now))]
      ensures !sent ==> outbox == old(outbox)
      ensures expiries == old(expiries)
    {
      if !player.OnVelocity? {
        return false;
      }
      match player.velocity.player.currentServer {
        case None =>
          sent := false;
        case Some(s) =>
          outbox := outbox + [ToServer(s, CreateSyncRequest(UuidOf(player), NameOf(player), s, now))];
          sent := true;
      }
    }

    /**
     * `switchPlayerChannel` on Velocity: the stub switch event can be neither cancelled nor
     * redirected, so the switch succeeds exactly for a registered channel and records that channel.
     */
    method SwitchPlayerChannel(player: OnlineUser, channelId: string, reason: SwitchReason) returns (switched: bool)
      modifies api
      ensures switched <==> channelId in api.channels
      ensures switched ==> api.IsPlayerInChannel(player, channelId)
      ensures !switched ==> api.membership == old(api.membership) && api.events == old(api.events)
      ensures api.events == old(api.events) + ExtendedApi.SwitchEvents(api.channels, UuidOf(player),
                ExtendedApi.ChannelOf(old(api.membership), UuidOf(player)), channelId, reason, SwitchOutcome(false, channelId))
      ensures api.membership == ExtendedApi.SwitchedMembership(api.channels, old(api.membership), UuidOf(player), channelId,
                                                               SwitchOutcome(false, channelId))
    {
      var uuid := UuidOf(player);
      var outcome := VelocityEvents.SwitchStub(uuid, ExtendedApi.ChannelOf(api.membership, uuid), channelId, reason).Outcome();
      VelocityEvents.VelocitySwitchCommitsRequestedChannel(api.channels, api.membership, uuid, channelId, reason);
      switched := api.SwitchPlayerChannel(player, channelId, reason, outcome);
    }

    /**
     * `executeChatCommand` on Velocity: the PRE stub runs the command on its own arguments and
     * the nested channel switch cannot be vetoed, so a channel command succeeds exactly when its
     * first argument names a registered channel.
     */
    method ExecuteChatCommand(player: OnlineUser, command: string, args: seq<string>, delivered: bool) returns (success: bool)
      modifies api
      ensures success <==> match FromCommand(command)
                           case ChannelSwitch => |args| > 0 && args[0] in api.channels
                           case PrivateMessage => |args| >= 2 && delivered
                           case _ => true
      ensures var uuid := UuidOf(player);
              var t := FromCommand(command);
              && api.events == old(api.events) + [ChatCommandFired(uuid, command, args, t, Pre)]
                               + (match ExtendedApi.CommandSwitchTarget(t, args)
                                  case Some(c) => ExtendedApi.SwitchEvents(api.channels, uuid, ExtendedApi.ChannelOf(old(api.membership), uuid),
                                                                           c, ApiCall, SwitchOutcome(false, c))
                                  case None => [])
                               + [ChatCommandFired(uuid, command, args, t, Post), ChatCommandMarked(uuid, success, ExtendedApi.FailureReason(success))]
              && api.membership == (match ExtendedApi.CommandSwitchTarget(t, args)
                                    case Some(c) => ExtendedApi.SwitchedMembership(api.channels, old(api.membership), uuid, c, SwitchOutcome(false, c))
                                    case None => old(api.membership))
    {
      var uuid := UuidOf(player);
      var t := FromCommand(command);
      var pre := VelocityEvents.CommandStub(uuid, command, args, t, Pre).Outcome();
      var target := if |args| > 0 then args[0] else "";
      var switchOutcome := VelocityEvents.SwitchStub(uuid, ExtendedApi.ChannelOf(api.membership, uuid), target, ApiCall).Outcome();
      success := api.ExecuteChatCommand(player, command, args, pre, switchOutcome, delivered);
    }
  }
}
