/**
 * What the Velocity and BungeeCord extended APIs have in common when they relay player status:
 * the status broadcast to every backend, and what a proxy-native user's cache becomes when a
 * backend's message about that player arrives.
 */
module ProxyRelay {
  import opened Wrappers
  import opened Values
  import opened StatusTypes
  import opened StatusCache
  import opened Messages
  import opened Transport
  import opened OnlineUsers

  const ApiCallReason: string := "API call"
  const ExpiredReason: string := "Temporary status expired"
  const DefaultDeathMessage: string := "Player died"

  /**
   * `broadcastStatusUpdate`: one STATUS_UPDATE about `player` to every server. A null value makes
   * `createStatusUpdate` throw before anything is sent, so then nothing goes out.
   */
  function StatusBroadcast(servers: seq<string>, player: OnlineUser, t: StatusType, value: Option<Value>,
                           reason: string, now: int): (r: seq<Outgoing>)
    ensures value.None? ==> r == []
    ensures value.Some? ==> |r| == |servers|
    ensures value.Some? ==> forall i :: 0 <= i < |r| ==>
      && r[i].ToServer? && r[i].server == servers[i]
      && r[i].message.messageType == StatusUpdate && r[i].message.playerUuid == UuidOf(player)
      && ReadStatusUpdate(r[i].message) == Some(StatusUpdateFields(t, value.value, reason))
  {
    match CreateStatusUpdate(UuidOf(player), NameOf(player), ServerNameOf(player), t, value, reason, now)
    case Ok(m) =>
      StatusUpdateRoundTrip(UuidOf(player), NameOf(player), ServerNameOf(player), t, value.value, reason, now);
      BroadcastTo(servers, m)
    case Err(_) => []
  }

  /**
   * The cache of a proxy-native user after the handler for `m` ran, for every type but
   * SYNC_RESPONSE (whose effect `SyncedFrom` states): a complete STATUS_UPDATE is written through
   * `updateStatus`, a complete HEALTH_CHANGE writes HEALTH then MAX_HEALTH, and nothing else
   * touches the cache.
   */
  function RelayedCache(before: Cache, m: PlayerStatusMessage): (r: Cache)
    ensures WellTyped(before) ==> WellTyped(r)
    ensures m.messageType != StatusUpdate && m.messageType != HealthChange ==> r == before
    ensures m.messageType == StatusUpdate && ReadStatusUpdate(m).None? ==> r == before
    ensures m.messageType == HealthChange && ReadHealthChange(m).None? ==> r == before
  {
    match m.messageType
    case StatusUpdate =>
      (match ReadStatusUpdate(m)
       case Some(f) => UpdateKeepsWellTypedIf(before, f.statusType, f.value); Update(before, f.statusType, f.value)
       case None => before)
    case HealthChange =>
      (match ReadHealthChange(m)
       case Some(h) =>
         var c := Update(before, StatusType.Health, DoubleV(h.newHealth));
         UpdateKeepsWellTypedIf(before, StatusType.Health, DoubleV(h.newHealth));
         UpdateKeepsWellTypedIf(c, StatusType.MaxHealth, DoubleV(h.maxHealth));
         Update(c, StatusType.MaxHealth, DoubleV(h.maxHealth))
       case None => before)
    case _ => before
  }

  lemma UpdateKeepsWellTypedIf(c: Cache, t: StatusType, v: Value)
    ensures WellTyped(c) ==> WellTyped(Update(c, t, v))
  {
    if WellTyped(c) {
      UpdateKeepsWellTyped(c, t, v);
    }
  }

  /** A status update a proxy broadcasts, relayed back by a proxy, is the same `updateStatus` call. */
  lemma {:induction false} RelayedStatusUpdateRoundTrip(before: Cache, uuid: Uuid, name: string, server: string,
                                                        t: StatusType, v: Value, reason: string, now: int)
    ensures RelayedCache(before, CreateStatusUpdate(uuid, name, server, t, Some(v), reason, now).value) == Update(before, t, v)
  {
    StatusUpdateRoundTrip(uuid, name, server, t, v, reason, now);
  }

  /** A relayed HEALTH_CHANGE leaves exactly its new and maximum health in the cache and nothing else changed. */
  lemma {:induction false} RelayedHealthRoundTrip(before: Cache, uuid: Uuid, name: string, server: string,
                                                  p: real, n: real, x: real, reason: string, now: int)
    ensures var r := RelayedCache(before, CreateHealthChange(uuid, name, server, p, n, x, reason, now));
            && EntryAt(r, StatusType.Health) == Some(DoubleV(n))
            && EntryAt(r, StatusType.MaxHealth) == Some(DoubleV(x))
            && forall u :: u != StatusType.Health && u != StatusType.MaxHealth ==> EntryAt(r, u) == EntryAt(before, u)
  {
    HealthChangeRoundTrip(uuid, name, server, p, n, x, reason, now);
    var c := Update(before, StatusType.Health, DoubleV(n));
    UpdateWritesOnlyValidValues(before, StatusType.Health, DoubleV(n));
    UpdateWritesOnlyValidValues(c, StatusType.MaxHealth, DoubleV(x));
  }

  /** The killer a death message names: the first online user with exactly that name, if any. */
  function KillerOf(online: seq<OnlineUser>, m: PlayerStatusMessage): (r: Option<Uuid>)
    ensures GetString(m, KillerField).None? ==> r.None?
    ensures r.Some? ==> exists i :: 0 <= i < |online| && UuidOf(online[i]) == r.value
                                    && NameOf(online[i]) == GetString(m, KillerField).value
                                    && forall j :: 0 <= j < i ==> NameOf(online[j]) != GetString(m, KillerField).value
    ensures GetString(m, KillerField).Some? && r.None? ==>
              forall i :: 0 <= i < |online| ==> NameOf(online[i]) != GetString(m, KillerField).value
  {
    match GetString(m, KillerField)
    case None => None
    case Some(name) =>
      match FindByName(online, name)
      case Some(k) =>
        var i :| 0 <= i < |online| && online[i] == k && forall j :: 0 <= j < i ==> NameOf(online[j]) != name;
        Some(UuidOf(k))
      case None => None
  }
}
