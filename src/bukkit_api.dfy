/**
 * `BukkitHuskChatExtendedAPI`: the extended API on a Bukkit backend. Status writes stay in the
 * player's local cache (nothing is broadcast from here), positions are real, so regions are
 * chunk regions and nearness is a distance, and four lists of registered listeners are fed
 * every matching Bukkit event.
 */
module BukkitApi {
  import opened Wrappers
  import opened Values
  import opened Text
  import opened StatusTypes
  import opened StatusCache
  import opened Events
  import opened OnlineUsers
  import Search
  import Locations
  import ExtendedApi
  import K = BukkitUsers

  /** The four listener lists. */
  datatype ListenerKind = ChatMessageListeners | ChannelSwitchListeners | PrivateMessageListeners | MessageFilterListeners

  /** A registered listener, by identity. */
  type ListenerId = nat

  /** The warning logged when a listener of that kind throws. */
  function ListenerWarning(kind: ListenerKind): string
  {
    match kind
    case ChatMessageListeners => "Error in chat message listener"
    case ChannelSwitchListeners => "Error in channel switch listener"
    case PrivateMessageListeners => "Error in private message listener"
    case MessageFilterListeners => "Error in message filter listener"
  }

  /** The warnings a dispatch to `ids` logs when the listeners in `failing` throw: one per throwing call, in call order. */
  function Warnings(kind: ListenerKind, ids: seq<ListenerId>, failing: set<ListenerId>): (r: seq<string>)
    ensures forall i :: 0 <= i < |r| ==> r[i] == ListenerWarning(kind)
    ensures |r| <= |ids|
  {
    if ids == [] then []
    else Warnings(kind, ids[..|ids| - 1], failing) + (if ids[|ids| - 1] in failing then [ListenerWarning(kind)] else [])
  }

  /** A dispatch logs nothing exactly when none of the listeners throws. */
  lemma {:induction false} NoWarningsIffNoFailures(kind: ListenerKind, ids: seq<ListenerId>, failing: set<ListenerId>)
    ensures Warnings(kind, ids, failing) == [] <==> forall i :: 0 <= i < |ids| ==> ids[i] !in failing
  {
    if ids != [] {
      var init := ids[..|ids| - 1];
      NoWarningsIffNoFailures(kind, init, failing);
      if Warnings(kind, ids, failing) == [] {
        forall i | 0 <= i < |ids| ensures ids[i] !in failing {
          if i < |ids| - 1 {
            assert ids[i] == init[i];
          }
        }
      } else if ids[|ids| - 1] !in failing {
        var j :| 0 <= j < |init| && init[j] in failing;
        assert ids[j] == init[j];
      }
    }
  }

  /** A scheduled expiry: after `delayTicks` server ticks, drop `statusType` from `user` again. */
  datatype Expiry = Expiry(user: K.BukkitUser, statusType: StatusType, value: Value, delayTicks: int)

  const ExpiredReason: string := "Temporary status expired"

  /** The squared distance between two Bukkit locations (the world is not compared). */
  function SquaredDistance(a: K.BukkitLocation, b: K.BukkitLocation): (d: real)
    ensures d >= 0.0
  {
    (a.x - b.x) * (a.x - b.x) + (a.y - b.y) * (a.y - b.y) + (a.z - b.z) * (a.z - b.z)
  }

  /**
   * `a.distance(b) <= radius`. The distance is the non-negative square root of the squared
   * distance, so the test holds exactly when the radius is non-negative and the squared distance
   * is at most its square.
   */
  predicate WithinRadius(a: K.BukkitLocation, b: K.BukkitLocation, radius: real)
  {
    radius >= 0.0 && SquaredDistance(a, b) <= radius * radius
  }

  /** The filter step of `getNearbyPlayers`: the world's players within `radius` of `center`, in the world's order. */
  function NearbyInWorld(worldPlayers: seq<K.BukkitPlayer>, center: K.BukkitLocation, radius: real): (r: seq<K.BukkitPlayer>)
    ensures |r| <= |worldPlayers|
    ensures forall i :: 0 <= i < |r| ==> r[i] in worldPlayers && WithinRadius(r[i].location, center, radius)
    ensures forall i :: (0 <= i < |worldPlayers| && WithinRadius(worldPlayers[i].location, center, radius)) ==> worldPlayers[i] in r
    ensures r == Search.Keep(worldPlayers, (q: K.BukkitPlayer) => WithinRadius(q.location, center, radius))
  {
    if worldPlayers == [] then []
    else
      var rest := NearbyInWorld(worldPlayers[1..], center, radius);
      if WithinRadius(worldPlayers[0].location, center, radius) then [worldPlayers[0]] + rest else rest
  }

  /** Unlike the proxies' version, the player is among their own nearby players whenever the radius is not negative. */
  lemma NearbyIncludesSelf(worldPlayers: seq<K.BukkitPlayer>, self: K.BukkitPlayer, radius: real)
    requires self in worldPlayers && radius >= 0.0
    ensures self in NearbyInWorld(worldPlayers, self.location, radius)
  {
    var i :| 0 <= i < |worldPlayers| && worldPlayers[i] == self;
    assert WithinRadius(worldPlayers[i].location, self.location, radius);
  }

  /** A negative radius finds nobody: no distance is negative. */
  lemma {:induction false} NegativeRadiusFindsNobody(worldPlayers: seq<K.BukkitPlayer>, center: K.BukkitLocation, radius: real)
    requires radius < 0.0
    ensures NearbyInWorld(worldPlayers, center, radius) == []
  {
    if worldPlayers != [] {
      NegativeRadiusFindsNobody(worldPlayers[1..], center, radius);
    }
  }

  /** `createLocationBasedChannel`: "location_", the region id of the player's location, "_", the radius cast to `int`. */
  function CreateLocationBasedChannel(player: OnlineUser, radius: real): string
    reads Footprint(player)
    requires HasLocation(player) && Valid(player)
  {
    "location_" + Locations.RegionId(LocationOf(player)) + "_" + IntToString(Locations.JavaIntCast(radius))
  }

  /** `arePlayersInSameRegion`: the two locations' region ids are equal. */
  predicate ArePlayersInSameRegion(a: OnlineUser, b: OnlineUser)
    reads Footprint(a), Footprint(b)
    requires HasLocation(a) && Valid(a) && HasLocation(b) && Valid(b)
  {
    Locations.RegionId(LocationOf(a)) == Locations.RegionId(LocationOf(b))
  }

  /**
   * For radii with the same integer part, two players get the same location channel exactly
   * when they are in the same region.
   */
  lemma {:induction false} LocationChannelIffSameRegion(a: OnlineUser, b: OnlineUser, r1: real, r2: real)
    requires HasLocation(a) && Valid(a) && HasLocation(b) && Valid(b)
    requires Locations.JavaIntCast(r1) == Locations.JavaIntCast(r2)
    ensures CreateLocationBasedChannel(a, r1) == CreateLocationBasedChannel(b, r2) <==> ArePlayersInSameRegion(a, b)
  {
    var suffix := "_" + IntToString(Locations.JavaIntCast(r1));
    var ra := Locations.RegionId(LocationOf(a));
    var rb := Locations.RegionId(LocationOf(b));
    assert CreateLocationBasedChannel(a, r1) == "location_" + ra + suffix;
    assert CreateLocationBasedChannel(b, r2) == "location_" + rb + suffix;
    MiddleDetermined("location_", ra, rb, suffix);
  }

  class BukkitExtendedApi {
    /** The platform-independent half of the API, with its channel membership and event log. */
    const api: ExtendedApi.HuskChatExtendedApi
    /** The four listener lists, in registration order. */
    var listeners: map<ListenerKind, seq<ListenerId>>
    /** Warnings logged by failed listener calls, in order. */
    var warnings: seq<string>
    /** Expiry tasks scheduled and not yet run. */
    var expiries: seq<Expiry>

    ghost predicate Valid()
      reads this
    {
      forall kind: ListenerKind :: kind in listeners
    }

    /** The constructor with its empty lists (registering the internal Bukkit listener is not modelled). */
    constructor (api: ExtendedApi.HuskChatExtendedApi)
      ensures this.api == api && Valid()
      ensures forall kind: ListenerKind :: listeners[kind] == []
      ensures warnings == [] && expiries == []
    {
      this.api := api;
      listeners := map[ChatMessageListeners := [], ChannelSwitchListeners := [], PrivateMessageListeners := [],
                       MessageFilterListeners := []];
      warnings := [];
      expiries := [];
      new;
      forall kind: ListenerKind ensures kind in listeners && listeners[kind] == [] {
        match kind
        case ChatMessageListeners =>
        case ChannelSwitchListeners =>
        case PrivateMessageListeners =>
        case MessageFilterListeners =>
      }
    }

    /** `register...Listener`: append to the kind's list (the same listener may be registered twice). */
    method Register(kind: ListenerKind, id: ListenerId)
      requires Valid()
      modifies this
      ensures Valid()
      ensures listeners == old(listeners)[kind := old(listeners[kind]) + [id]]
      ensures warnings == old(warnings) && expiries == old(expiries)
    {
      listeners := listeners[kind := listeners[kind] + [id]];
    }

    /** `unregister...Listener`: `List.remove`, which drops the first registration only. */
    method Unregister(kind: ListenerKind, id: ListenerId)
      requires Valid()
      modifies this
      ensures Valid()
      ensures listeners == old(listeners)[kind := Search.RemoveFirst(old(listeners[kind]), id)]
      ensures warnings == old(warnings) && expiries == old(expiries)
    {
      listeners := listeners[kind := Search.RemoveFirst(listeners[kind], id)];
    }

    /**
     * The internal listener's `forEach`: every registered listener of the kind is called in
     * order, and one that throws (those in `failing`) is logged and skipped over, never stopping
     * the rest.
     */
    method Dispatch(kind: ListenerKind, failing: set<ListenerId>) returns (called: seq<ListenerId>)
      requires Valid()
      modifies this
      ensures Valid()
      ensures called == listeners[kind]
      ensures warnings == old(warnings) + Warnings(kind, listeners[kind], failing)
      ensures listeners == old(listeners) && expiries == old(expiries)
    {
      var ids := listeners[kind];
      called := [];
      var i := 0;
      while i < |ids|
        invariant 0 <= i <= |ids|
        invariant called == ids[..i]
        invariant warnings == old(warnings) + Warnings(kind, ids[..i], failing)
        invariant listeners == old(listeners) && expiries == old(expiries)
      {
        var id := ids[i];
        assert ids[..i + 1][..i] == ids[..i];
        called := called + [id];
        if id in failing {
          warnings := warnings + [ListenerWarning(kind)];
        }
        i := i + 1;
      }
      assert ids[..i] == ids;
    }

    /**
     * `updatePlayerStatusInternal`: for a Bukkit user, write the local cache and, when `duration`
     * (milliseconds) is positive, schedule an expiry `duration / 50` ticks later; nothing is
     * broadcast, and any other user is ignored.
     */
    method UpdatePlayerStatusInternal(player: OnlineUser, t: StatusType, v: Value, duration: int)
      requires OnlineUsers.Valid(player)
      modifies this, Footprint(player)
      ensures OnlineUsers.Valid(player)
      ensures player.OnBukkit? ==>
        && player.bukkit.statusCache == Update(old(player.bukkit.statusCache), t, v)
        && expiries == old(expiries) + (if duration > 0 then [Expiry(player.bukkit, t, v, duration / 50)] else [])
      ensures !player.OnBukkit? ==> unchanged(Footprint(player)) && expiries == old(expiries)
      ensures listeners == old(listeners) && warnings == old(warnings)
    {
      if player.OnBukkit? {
        var user := player.bukkit;
        user.UpdateStatus(t, v);
        if duration > 0 {
          expiries := expiries + [Expiry(user, t, v, duration / 50)];
        }
      }
    }

    /**
     * `updatePlayerStatus`, with the listeners' verdict on the change event given as `cancelled`:
     * the event fires with the previous value, and only an uncancelled change reaches the cache.
     */
    method UpdatePlayerStatus(player: OnlineUser, t: StatusType, v: Value, reason: string, duration: int, cancelled: bool)
      returns (updated: bool)
      requires OnlineUsers.Valid(player)
      modifies this, api, Footprint(player)
      ensures updated == !cancelled
      ensures OnlineUsers.Valid(player)
      ensures api.events == old(api.events) + [StatusChangeFired(UuidOf(player), t, old(GetStatus(player, t)), Some(v), reason, duration)]
      ensures api.membership == old(api.membership)
      ensures updated && player.OnBukkit? ==>
        && player.bukkit.statusCache == Update(old(player.bukkit.statusCache), t, v)
        && expiries == old(expiries) + (if duration > 0 then [Expiry(player.bukkit, t, v, duration / 50)] else [])
      ensures !updated || !player.OnBukkit? ==> unchanged(Footprint(player)) && expiries == old(expiries)
      ensures listeners == old(listeners) && warnings == old(warnings)
    {
      var proceed := api.StatusChangeGate(player, t, v, reason, duration, cancelled);
      if proceed {
        UpdatePlayerStatusInternal(player, t, v, duration);
      }
      updated := proceed;
    }

    /** The scheduled task of expiry `k`: the status is removed and the change event (from the temporary value to null) fires. */
    method RunExpiry(k: nat)
      requires k < |expiries| && expiries[k].user.Valid()
      modifies this, api, expiries[k].user
      ensures var e := old(expiries[k]);
              && e.user.statusCache == Remove(old(e.user.statusCache), e.statusType) && e.user.Valid()
              && api.events == old(api.events) + [StatusChangeFired(e.user.Uuid(), e.statusType, Some(e.value), None, ExpiredReason, -1)]
      ensures api.membership == old(api.membership)
      ensures expiries == old(expiries[..k] + expiries[k + 1..])
      ensures listeners == old(listeners) && warnings == old(warnings)
    {
      var e := expiries[k];
      e.user.RemoveStatus(e.statusType);
      api.Fire(StatusChangeFired(e.user.Uuid(), e.statusType, Some(e.value), None, ExpiredReason, -1));
      expiries := expiries[..k] + expiries[k + 1..];
    }

    /**
     * `getNearbyPlayers`: nobody for a user that is not a Bukkit player; otherwise the players of
     * the player's world (`worldPlayers`) within `radius`, each adapted into a new user with a
     * fresh cache.
     */
    method GetNearbyPlayers(player: OnlineUser, worldPlayers: seq<K.BukkitPlayer>, radius: real, now: int)
      returns (r: seq<K.BukkitUser>)
      ensures !player.OnBukkit? ==> r == []
      ensures player.OnBukkit? ==>
        var chosen := NearbyInWorld(worldPlayers, player.bukkit.player.location, radius);
        && |r| == |chosen|
        && forall i :: 0 <= i < |r| ==> fresh(r[i]) && r[i].player == chosen[i] && r[i].statusCache == DefaultStatuses()
    {
      if !player.OnBukkit? {
        return [];
      }
      r := AdaptAll(NearbyInWorld(worldPlayers, player.bukkit.player.location, radius), now);
    }
  }

  /** `map(BukkitUser::adapt)` collected to a list: one new user with a fresh cache per player, in order. */
  method AdaptAll(players: seq<K.BukkitPlayer>, now: int) returns (r: seq<K.BukkitUser>)
    ensures |r| == |players|
    ensures forall i :: 0 <= i < |r| ==> fresh(r[i]) && r[i].player == players[i] && r[i].statusCache == DefaultStatuses()
  {
    r := [];
    var i := 0;
    while i < |players|
      invariant 0 <= i <= |players| && |r| == i
      invariant forall j :: 0 <= j < i ==> fresh(r[j]) && r[j].player == players[j] && r[j].statusCache == DefaultStatuses()
    {
      var u := new K.BukkitUser.Adapt(players[i], now);
      r := r + [u];
      i := i + 1;
    }
  }

  /** Registering a new listener and unregistering it again restores the list it was added to. */
  lemma RegisterThenUnregisterRestores(ids: seq<ListenerId>, id: ListenerId)
    requires id !in ids
    ensures Search.RemoveFirst(ids + [id], id) == ids
  {
    assert (ids + [id])[..|ids|] == ids;
    Search.RemoveFirstCutsFirstOccurrence(ids + [id], id, |ids|);
  }
}
