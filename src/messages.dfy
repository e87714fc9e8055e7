/** `PlayerStatusMessage`: the envelope the proxy and the game servers exchange on the plugin channel. */
module Messages {
  import opened Wrappers
  import opened Values
  import opened StatusTypes
  import Search

  /** The plugin-message channel both sides listen on. */
  const PlayerStatusChannel: string := "huskchat:player_status"

  datatype MessageType =
    | StatusUpdate | HealthChange | LocationChange | PlayerDeath
    | PlayerRespawn | CommandExecution | SyncRequest | SyncResponse

  const AllMessageTypes: seq<MessageType> :=
    [StatusUpdate, HealthChange, LocationChange, PlayerDeath,
     PlayerRespawn, CommandExecution, SyncRequest, SyncResponse]

  function TypeKey(t: MessageType): string
  {
    match t
    case StatusUpdate => "status_update"
    case HealthChange => "health_change"
    case LocationChange => "location_change"
    case PlayerDeath => "player_death"
    case PlayerRespawn => "player_respawn"
    case CommandExecution => "command_execution"
    case SyncRequest => "sync_request"
    case SyncResponse => "sync_response"
  }

  function TypeOrdinal(t: MessageType): (i: nat)
    ensures i < |AllMessageTypes| && AllMessageTypes[i] == t
  {
    match t
    case StatusUpdate => 0 case HealthChange => 1 case LocationChange => 2 case PlayerDeath => 3
    case PlayerRespawn => 4 case CommandExecution => 5 case SyncRequest => 6 case SyncResponse => 7
  }

  lemma NoTypeMatchInValuesMeansNoMatch(key: string)
    requires forall j :: 0 <= j < |AllMessageTypes| ==> TypeKey(AllMessageTypes[j]) != key
    ensures forall t :: TypeKey(t) != key
  {
    forall t ensures TypeKey(t) != key {
      assert AllMessageTypes[TypeOrdinal(t)] == t;
    }
  }

  /**
   * `MessageType.fromKey`: the type with that key, or an `IllegalArgumentException`
   * naming the key when no type has it.
   */
  function MessageTypeFromKey(key: string): (r: Result<MessageType>)
    ensures r.Ok? ==> TypeKey(r.value) == key
    ensures r.Err? <==> forall t :: TypeKey(t) != key
    ensures r.Err? ==> r.error == IllegalArgument("Unknown message type: " + key)
  {
    match Search.FirstIndex(AllMessageTypes, (t: MessageType) => TypeKey(t) == key)
    case Some(i) => Ok(AllMessageTypes[i])
    case None =>
      NoTypeMatchInValuesMeansNoMatch(key);
      Err(IllegalArgument("Unknown message type: " + key))
  }

  /** Every message type's key leads back to it: the eight keys are pairwise distinct. */
  lemma MessageTypeRoundTrip(t: MessageType)
    ensures MessageTypeFromKey(TypeKey(t)) == Ok(t)
  {
    var r := MessageTypeFromKey(TypeKey(t));
    TypeKeysDistinct(r.value, t);
  }

  lemma TypeKeysDistinct(a: MessageType, b: MessageType)
    requires TypeKey(a) == TypeKey(b)
    ensures a == b
  {
  }

  /**
   * The envelope. `timestamp` is the clock reading taken at construction; nothing reads it
   * again, so updates take effect in the order they arrive. A data entry whose Java value is
   * null is represented by the key being absent: both read back as null through `getData`.
   */
  datatype PlayerStatusMessage = PlayerStatusMessage(
    messageType: MessageType,
    playerUuid: Uuid,
    playerName: string,
    serverName: string,
    timestamp: int,
    data: map<string, Value>)

  /** `getData(key)`: the raw value, or null. */
  function GetData(m: PlayerStatusMessage, key: string): Option<Value>
  {
    if key in m.data then Some(m.data[key]) else None
  }

  /** `getData(key, type)`: the value only when present and of the requested class, otherwise null. */
  function GetDataAs(m: PlayerStatusMessage, key: string, k: Kind): (r: Option<Value>)
    ensures r.Some? <==> key in m.data && IsInstance(m.data[key], k)
    ensures r.Some? ==> r.value == m.data[key] && GetData(m, key) == r
  {
    match GetData(m, key)
    case Some(v) => if IsInstance(v, k) then Some(v) else None
    case None => None
  }

  /** `getData(key, String.class)`, unwrapped to the string. */
  function GetString(m: PlayerStatusMessage, key: string): (r: Option<string>)
    ensures r.Some? <==> GetDataAs(m, key, StringKind).Some?
    ensures r.Some? ==> m.data[key] == StrV(r.value)
  {
    match GetDataAs(m, key, StringKind)
    case Some(v) => Some(v.s)
    case None => None
  }

  /** `getData(key, Double.class)`, unwrapped to the number. */
  function GetDouble(m: PlayerStatusMessage, key: string): (r: Option<real>)
    ensures r.Some? <==> GetDataAs(m, key, DoubleKind).Some?
    ensures r.Some? ==> m.data[key] == DoubleV(r.value)
  {
    match GetDataAs(m, key, DoubleKind)
    case Some(v) => Some(v.d)
    case None => None
  }

  const StatusTypeField: string := "status_type"
  const ValueField: string := "value"
  const ReasonField: string := "reason"
  const PreviousHealthField: string := "previous_health"
  const NewHealthField: string := "new_health"
  const MaxHealthField: string := "max_health"
  const DeathMessageField: string := "death_message"
  const KillerField: string := "killer"

  /**
   * `createStatusUpdate`: data `{status_type: key, value, reason}`. `Map.of` throws a
   * NullPointerException on a null value, so a null value yields no message.
   */
  function CreateStatusUpdate(uuid: Uuid, name: string, server: string, t: StatusType,
                              value: Option<Value>, reason: string, now: int): (r: Result<PlayerStatusMessage>)
    ensures r.Err? <==> value.None?
    ensures r.Err? ==> r.error == NullPointer
    ensures r.Ok? ==> (r.value.messageType == StatusUpdate
      && r.value.playerUuid == uuid && r.value.playerName == name && r.value.serverName == server
      && r.value.data.Keys == {StatusTypeField, ValueField, ReasonField}
      && r.value.data[StatusTypeField] == StrV(Key(t))
      && r.value.data[ValueField] == value.value
      && r.value.data[ReasonField] == StrV(reason))
  {
    match value
    case None => Err(NullPointer)
    case Some(v) =>
      Ok(PlayerStatusMessage(StatusUpdate, uuid, name, server, now,
        map[StatusTypeField := StrV(Key(t)), ValueField := v, ReasonField := StrV(reason)]))
  }

  /** `createHealthChange`: data `{previous_health, new_health, max_health, reason}`. */
  function CreateHealthChange(uuid: Uuid, name: string, server: string, previousHealth: real,
                              newHealth: real, maxHealth: real, reason: string, now: int): (m: PlayerStatusMessage)
    ensures m.messageType == HealthChange
    ensures m.playerUuid == uuid && m.playerName == name && m.serverName == server
    ensures m.data.Keys == {PreviousHealthField, NewHealthField, MaxHealthField, ReasonField}
    ensures m.data[PreviousHealthField] == DoubleV(previousHealth) && m.data[NewHealthField] == DoubleV(newHealth)
    ensures m.data[MaxHealthField] == DoubleV(maxHealth) && m.data[ReasonField] == StrV(reason)
  {
    PlayerStatusMessage(HealthChange, uuid, name, server, now,
      map[PreviousHealthField := DoubleV(previousHealth), NewHealthField := DoubleV(newHealth),
          MaxHealthField := DoubleV(maxHealth), ReasonField := StrV(reason)])
  }

  /** `createLocationChange`: the caller's map, unchanged. */
  function CreateLocationChange(uuid: Uuid, name: string, server: string, locationData: map<string, Value>, now: int): (m: PlayerStatusMessage)
    ensures m.messageType == LocationChange && m.data == locationData
    ensures m.playerUuid == uuid && m.playerName == name && m.serverName == server
  {
    PlayerStatusMessage(LocationChange, uuid, name, server, now, locationData)
  }

  /** `createSyncRequest`: no data at all. */
  function CreateSyncRequest(uuid: Uuid, name: string, server: string, now: int): (m: PlayerStatusMessage)
    ensures m.messageType == SyncRequest && m.data == map[]
    ensures m.playerUuid == uuid && m.playerName == name && m.serverName == server
  {
    PlayerStatusMessage(SyncRequest, uuid, name, server, now, map[])
  }

  /** `createSyncResponse`: the caller's map, unchanged. */
  function CreateSyncResponse(uuid: Uuid, name: string, server: string, allStatuses: map<string, Value>, now: int): (m: PlayerStatusMessage)
    ensures m.messageType == SyncResponse && m.data == allStatuses
    ensures m.playerUuid == uuid && m.playerName == name && m.serverName == server
  {
    PlayerStatusMessage(SyncResponse, uuid, name, server, now, allStatuses)
  }

  /** What a proxy's STATUS_UPDATE handler reads from a message before it acts. */
  datatype StatusUpdateFields = StatusUpdateFields(statusType: StatusType, value: Value, reason: string)

  /**
   * The proxy handlers' required-key check: `status_type` and `reason` must be Strings and
   * `value` non-null; the key then goes through `fromKey`, which never fails.
   */
  function ReadStatusUpdate(m: PlayerStatusMessage): (r: Option<StatusUpdateFields>)
    ensures r.Some? <==> GetString(m, StatusTypeField).Some? && ValueField in m.data && GetString(m, ReasonField).Some?
    ensures r.Some? ==> (r.value.statusType == FromKey(GetString(m, StatusTypeField).value)
      && r.value.value == m.data[ValueField] && r.value.reason == GetString(m, ReasonField).value)
  {
    match (GetString(m, StatusTypeField), GetData(m, ValueField), GetString(m, ReasonField))
    case (Some(key), Some(v), Some(reason)) => Some(StatusUpdateFields(FromKey(key), v, reason))
    case _ => None
  }

  /** A STATUS_UPDATE built by `createStatusUpdate` reads back as the type, value and reason it was built from. */
  lemma {:induction false} StatusUpdateRoundTrip(uuid: Uuid, name: string, server: string, t: StatusType,
                                                 v: Value, reason: string, now: int)
    ensures CreateStatusUpdate(uuid, name, server, t, Some(v), reason, now).Ok?
    ensures ReadStatusUpdate(CreateStatusUpdate(uuid, name, server, t, Some(v), reason, now).value)
      == Some(StatusUpdateFields(t, v, reason))
  {
    var m := CreateStatusUpdate(uuid, name, server, t, Some(v), reason, now).value;
    assert GetString(m, StatusTypeField) == Some(Key(t));
    assert GetString(m, ReasonField) == Some(reason);
    FromKeyRoundTrip(t);
  }

  /** What a proxy's HEALTH_CHANGE handler reads from a message before it acts. */
  datatype HealthFields = HealthFields(previousHealth: real, newHealth: real, maxHealth: real, reason: string)

  /** The proxy handlers' required-key check: three Doubles and a String. */
  function ReadHealthChange(m: PlayerStatusMessage): (r: Option<HealthFields>)
    ensures r.Some? <==> (GetDouble(m, PreviousHealthField).Some? && GetDouble(m, NewHealthField).Some?
      && GetDouble(m, MaxHealthField).Some? && GetString(m, ReasonField).Some?)
    ensures r.Some? ==> (m.data[PreviousHealthField] == DoubleV(r.value.previousHealth)
      && m.data[NewHealthField] == DoubleV(r.value.newHealth)
      && m.data[MaxHealthField] == DoubleV(r.value.maxHealth)
      && m.data[ReasonField] == StrV(r.value.reason))
  {
    match (GetDouble(m, PreviousHealthField), GetDouble(m, NewHealthField), GetDouble(m, MaxHealthField), GetString(m, ReasonField))
    case (Some(p), Some(n), Some(x), Some(reason)) => Some(HealthFields(p, n, x, reason))
    case _ => None
  }

  /** A HEALTH_CHANGE built by `createHealthChange` reads back as the numbers and reason it was built from. */
  lemma HealthChangeRoundTrip(uuid: Uuid, name: string, server: string, p: real, n: real, x: real, reason: string, now: int)
    ensures ReadHealthChange(CreateHealthChange(uuid, name, server, p, n, x, reason, now)) == Some(HealthFields(p, n, x, reason))
  {
  }

  /** The class Gson's default `Object` adapter reads a JSON object into. */
  const JsonObjectClass: string := "com.google.gson.internal.LinkedTreeMap"

  /**
   * A value that JSON gives back as itself: a String, a Boolean, a Double, or a JSON object that
   * Gson has already read.
   */
  predicate ReadsBackAsItself(v: Value)
  {
    v.StrV? || v.BoolV? || v.DoubleV? || v == OtherV(JsonObjectClass)
  }

  /**
   * A value read back into an `Object` slot with the default `new Gson()`: a JSON number becomes a
   * Double, so an Integer or Long the sender put arrives as the Double of the same value; a String,
   * Boolean or Double arrives as it was sent; any other object is not read back as itself but as
   * the `LinkedTreeMap` of its JSON form.
   */
  function DecodedValue(v: Value): (r: Value)
    ensures ReadsBackAsItself(r)
    ensures r == v <==> ReadsBackAsItself(v)
  {
    match v
    case IntV(i) => DoubleV(i as real)
    case LongV(l) => DoubleV(l as real)
    case OtherV(_) => OtherV(JsonObjectClass)
    case _ => v
  }

  /**
   * The message a receiver's `fromJson(json, PlayerStatusMessage.class)` produces from what the
   * sender's `toJson` wrote: the declared fields as sent, and every data value as `DecodedValue`.
   */
  function Decoded(m: PlayerStatusMessage): (r: PlayerStatusMessage)
    ensures r.messageType == m.messageType && r.playerUuid == m.playerUuid
    ensures r.playerName == m.playerName && r.serverName == m.serverName && r.timestamp == m.timestamp
    ensures r.data.Keys == m.data.Keys
    ensures forall k :: k in r.data ==> !r.data[k].IntV? && !r.data[k].LongV?
    ensures forall k :: k in r.data ==> ReadsBackAsItself(r.data[k])
  {
    m.(data := DecodedData(m.data))
  }

  /** The data map of a decoded message: the same keys, each value as `DecodedValue`. */
  function DecodedData(data: map<string, Value>): (r: map<string, Value>)
    ensures r.Keys == data.Keys
    ensures forall k :: k in r ==> !r[k].IntV? && !r[k].LongV?
    ensures forall k :: k in r ==> ReadsBackAsItself(r[k])
  {
    map k | k in data :: DecodedValue(data[k])
  }

  lemma DecodedDataAt(data: map<string, Value>, k: string)
    requires k in data
    ensures DecodedData(data)[k] == DecodedValue(data[k])
  {
  }

  /**
   * Strings, Booleans and Doubles survive the trip; an Integer or a Long comes back as a Double of
   * its value, and any other object comes back as a JSON object, so not as itself unless it was one.
   */
  lemma DecodedValues(m: PlayerStatusMessage, k: string)
    requires k in m.data
    ensures Decoded(m).data[k] == m.data[k] <==> ReadsBackAsItself(m.data[k])
    ensures m.data[k].IntV? ==> Decoded(m).data[k] == DoubleV(m.data[k].i as real)
    ensures m.data[k].LongV? ==> Decoded(m).data[k] == DoubleV(m.data[k].l as real)
    ensures m.data[k].OtherV? ==> Decoded(m).data[k] == OtherV(JsonObjectClass)
  {
  }

  /**
   * So a String read sees what the sender put, a Double read sees every Double the sender put,
   * and an Integer or a Long the sender put is read as a Double.
   */
  lemma {:induction false} DecodedKeepsStringsAndDoubles(m: PlayerStatusMessage, k: string)
    ensures GetString(Decoded(m), k) == GetString(m, k)
    ensures GetDouble(m, k).Some? ==> GetDouble(Decoded(m), k) == GetDouble(m, k)
    ensures k in m.data && m.data[k].IntV? ==> GetDouble(Decoded(m), k) == Some(m.data[k].i as real)
    ensures k in m.data && m.data[k].LongV? ==> GetDouble(Decoded(m), k) == Some(m.data[k].l as real)
  {
    if k in m.data {
      DecodedValues(m, k);
    }
  }

  /**
   * A message arrives exactly as it was sent iff every value in its data reads back as itself: one
   * carrying an Integer, a Long or an object of another class arrives changed.
   */
  lemma {:induction false} DecodedAsSent(m: PlayerStatusMessage)
    ensures Decoded(m) == m <==> forall k :: k in m.data ==> ReadsBackAsItself(m.data[k])
  {
    if forall k :: k in m.data ==> ReadsBackAsItself(m.data[k]) {
      assert Decoded(m).data == m.data by {
        forall k | k in m.data ensures Decoded(m).data[k] == m.data[k] {
          DecodedValues(m, k);
        }
      }
    } else {
      var k :| k in m.data && !ReadsBackAsItself(m.data[k]);
      DecodedValues(m, k);
    }
  }

  /** Decoding what was decoded changes nothing: a second trip through JSON is harmless. */
  lemma {:induction false} DecodedIdempotent(m: PlayerStatusMessage)
    ensures Decoded(Decoded(m)) == Decoded(m)
  {
    DecodedAsSent(Decoded(m));
  }
}
