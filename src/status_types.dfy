/**
 * Values carried in status caches and message data. A Java `Object` that is not null is one of
 * these; a Java null is `Option.None` wherever the source allows it.
 */
module Values {

  /** The Java classes a status type declares for its values (`Class<?> valueType`). */
  datatype Kind = BooleanKind | IntegerKind | LongKind | DoubleKind | StringKind | ObjectKind

  /** A non-null boxed Java value. `OtherV` is an object of any other class. */
  datatype Value =
    | BoolV(b: bool)
    | IntV(i: int)
    | LongV(l: int)
    | DoubleV(d: real)
    | StrV(s: string)
    | OtherV(className: string)

  /** `java.util.UUID`: two 64-bit halves. */
  datatype Uuid = Uuid(mostSignificant: int, leastSignificant: int)

  /** `kind.isAssignableFrom(value.getClass())`: the boxed classes are final, so only the exact class matches, and `Object` matches everything. */
  predicate IsInstance(v: Value, k: Kind)
  {
    match k
    case ObjectKind => true
    case BooleanKind => v.BoolV?
    case IntegerKind => v.IntV?
    case LongKind => v.LongV?
    case DoubleKind => v.DoubleV?
    case StringKind => v.StrV?
  }
}

/** `PlayerStatusChangeEvent.StatusType`: the status vocabulary, its wire keys and declared value kinds. */
module StatusTypes {
  import opened Wrappers
  import opened Values
  import Search

  /**
   * The eleven constants of the enum, followed by nine constants that the user and API classes
   * use but the enum does not declare (HEALTH .. TOTAL_ONLINE_TIME); their keys and kinds are
   * assumptions of this model, read off the casts at their use sites.
   */
  datatype StatusType =
    | Away | Combat | Sneaking | Flying | GameMode | FoodLevel | ExperienceLevel
    | Muted | Busy | Vanished | Custom
    | Health | MaxHealth | World | Server | Ping | ClientBrand
    | FirstJoinTime | LastLoginTime | TotalOnlineTime

  /** `StatusType.values()`, in declaration order. */
  const AllStatusTypes: seq<StatusType> :=
    [Away, Combat, Sneaking, Flying, GameMode, FoodLevel, ExperienceLevel,
     Muted, Busy, Vanished, Custom,
     Health, MaxHealth, World, Server, Ping, ClientBrand,
     FirstJoinTime, LastLoginTime, TotalOnlineTime]

  function Key(t: StatusType): string
  {
    match t
    case Away => "away"
    case Combat => "combat"
    case Sneaking => "sneaking"
    case Flying => "flying"
    case GameMode => "gamemode"
    case FoodLevel => "food"
    case ExperienceLevel => "exp_level"
    case Muted => "muted"
    case Busy => "busy"
    case Vanished => "vanished"
    case Custom => "custom"
    case Health => "health"
    case MaxHealth => "max_health"
    case World => "world"
    case Server => "server"
    case Ping => "ping"
    case ClientBrand => "client_brand"
    case FirstJoinTime => "first_join_time"
    case LastLoginTime => "last_login_time"
    case TotalOnlineTime => "total_online_time"
  }

  function ValueType(t: StatusType): Kind
  {
    match t
    case Away | Combat | Sneaking | Flying | Muted | Busy | Vanished => BooleanKind
    case GameMode | World | Server | ClientBrand => StringKind
    case FoodLevel | ExperienceLevel | Ping => IntegerKind
    case Health | MaxHealth => DoubleKind
    case FirstJoinTime | LastLoginTime | TotalOnlineTime => LongKind
    case Custom => ObjectKind
  }

  /** The position of a type in `values()`. */
  function Ordinal(t: StatusType): (i: nat)
    ensures i < |AllStatusTypes| && AllStatusTypes[i] == t
  {
    match t
    case Away => 0 case Combat => 1 case Sneaking => 2 case Flying => 3 case GameMode => 4
    case FoodLevel => 5 case ExperienceLevel => 6 case Muted => 7 case Busy => 8 case Vanished => 9
    case Custom => 10 case Health => 11 case MaxHealth => 12 case World => 13 case Server => 14
    case Ping => 15 case ClientBrand => 16 case FirstJoinTime => 17 case LastLoginTime => 18
    case TotalOnlineTime => 19
  }

  /** No two status types share a key. */
  lemma KeysDistinct(a: StatusType, b: StatusType)
    requires Key(a) == Key(b)
    ensures a == b
  {
  }

  /**
   * `fromKey`: the first type, in declaration order, whose key equals `key`, else CUSTOM.
   * It never fails: every key yields a type.
   */
  function FromKey(key: string): (t: StatusType)
    ensures Key(t) == key || (t == Custom && forall u :: Key(u) != key)
  {
    match Search.FirstIndex(AllStatusTypes, (u: StatusType) => Key(u) == key)
    case Some(i) => AllStatusTypes[i]
    case None =>
      NoMatchInValuesMeansNoMatch(key);
      Custom
  }

  lemma NoMatchInValuesMeansNoMatch(key: string)
    requires forall j :: 0 <= j < |AllStatusTypes| ==> Key(AllStatusTypes[j]) != key
    ensures forall u :: Key(u) != key
  {
    forall u ensures Key(u) != key {
      assert AllStatusTypes[Ordinal(u)] == u;
    }
  }

  /** A string that is no type's key is sent to CUSTOM. */
  lemma UnknownKeyIsCustom(key: string)
    requires forall u :: Key(u) != key
    ensures FromKey(key) == Custom
  {
  }

  /** Every type's key leads back to that type. */
  lemma FromKeyRoundTrip(t: StatusType)
    ensures FromKey(Key(t)) == t
  {
    var r := FromKey(Key(t));
    KeysDistinct(r, t);
  }

  /** `isValidValue`: null passes; otherwise the value's class must be the declared kind, or the declared kind is Object. */
  predicate IsValidValue(t: StatusType, v: Option<Value>)
  {
    v.None? || IsInstance(v.value, ValueType(t)) || ValueType(t) == ObjectKind
  }

  lemma NullIsValidForEveryType(t: StatusType)
    ensures IsValidValue(t, None)
  {
  }

  /** CUSTOM accepts every value; every other type accepts exactly the values of its declared kind. */
  lemma ValidityIsDeclaredKind(t: StatusType, v: Value)
    ensures t == Custom ==> IsValidValue(t, Some(v))
    ensures t != Custom ==> (IsValidValue(t, Some(v)) <==> IsInstance(v, ValueType(t)) && ValueType(t) != ObjectKind)
  {
  }

  /** `isTemporary`: a positive duration; -1 marks a permanent change. */
  predicate IsTemporary(duration: int)
  {
    duration > 0
  }

  const Permanent: int := -1

  lemma PermanentIsNotTemporary()
    ensures !IsTemporary(Permanent)
  {
  }
}
