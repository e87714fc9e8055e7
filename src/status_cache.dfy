/**
 * The per-user status cache that `VelocityUser`, `BungeeUser` and `BukkitUser` each keep as a
 * `Map<StatusType, Object>` field: its seed, its validated write, its removal, its typed reads
 * with defaults, and what merging a backend snapshot into it achieves.
 */
module StatusCache {
  import opened Wrappers
  import opened Values
  import opened StatusTypes
  import Search

  type Cache = map<StatusType, Value>

  /** The cache's entry for `t`, as `Optional.ofNullable(statusCache.get(t))` sees it. */
  function EntryAt(c: Cache, t: StatusType): Option<Value>
  {
    if t in c then Some(c[t]) else None
  }

  /** `initializeStatusCache`: AWAY, COMBAT, MUTED, BUSY and VANISHED, each false, and nothing else. */
  function DefaultStatuses(): (c: Cache)
    ensures c.Keys == {Away, Combat, Muted, Busy, Vanished}
    ensures forall t :: t in c ==> c[t] == BoolV(false)
  {
    map[Away := BoolV(false), Combat := BoolV(false), Muted := BoolV(false),
        Busy := BoolV(false), Vanished := BoolV(false)]
  }

  /** Every cached value has its type's declared kind, so the getters' casts cannot fail. */
  ghost predicate WellTyped(c: Cache)
  {
    forall t :: t in c ==> IsValidValue(t, Some(c[t]))
  }

  /**
   * What both proxies' `getAllStatuses` return: a copy of the cache with the live server name
   * over SERVER and the live ping over PING, every other entry the cache's own.
   */
  function WithProxyReadings(c: Cache, server: string, ping: int): (r: Cache)
    ensures r.Keys == c.Keys + {Server, Ping}
    ensures r[Server] == StrV(server) && r[Ping] == IntV(ping)
    ensures forall t :: t in c && t != Server && t != Ping ==> r[t] == c[t]
    ensures WellTyped(c) ==> WellTyped(r)
  {
    c[Server := StrV(server)][Ping := IntV(ping)]
  }

  lemma DefaultsWellTyped()
    ensures WellTyped(DefaultStatuses())
  {
  }

  /** `updateStatus`: store the value when `isValidValue` accepts it, otherwise leave the cache alone. */
  function Update(c: Cache, t: StatusType, v: Value): Cache
  {
    if IsValidValue(t, Some(v)) then c[t := v] else c
  }

  /** A write lands iff the value is valid for the type, and touches no other type. */
  lemma UpdateWritesOnlyValidValues(c: Cache, t: StatusType, v: Value)
    ensures EntryAt(Update(c, t, v), t) == Some(v) || (!IsValidValue(t, Some(v)) && Update(c, t, v) == c)
    ensures IsValidValue(t, Some(v)) ==> EntryAt(Update(c, t, v), t) == Some(v)
    ensures forall u :: u != t ==> EntryAt(Update(c, t, v), u) == EntryAt(c, u)
  {
  }

  lemma UpdateKeepsWellTyped(c: Cache, t: StatusType, v: Value)
    requires WellTyped(c)
    ensures WellTyped(Update(c, t, v))
  {
  }

  /** `removeStatus`: drop one key. */
  function Remove(c: Cache, t: StatusType): (r: Cache)
    ensures t !in r
    ensures forall u :: u != t ==> EntryAt(r, u) == EntryAt(c, u)
  {
    c - {t}
  }

  lemma RemoveKeepsWellTyped(c: Cache, t: StatusType)
    requires WellTyped(c)
    ensures WellTyped(Remove(c, t))
  {
  }

  /** `(Boolean) statusCache.getOrDefault(t, false)`: true exactly when `true` is cached. */
  function CachedBool(c: Cache, t: StatusType): (r: bool)
    requires WellTyped(c) && ValueType(t) == BooleanKind
    ensures r <==> EntryAt(c, t) == Some(BoolV(true))
  {
    if t in c then c[t].b else false
  }

  /** `(Double) statusCache.getOrDefault(t, default)`. */
  function CachedDouble(c: Cache, t: StatusType, default: real): (r: real)
    requires WellTyped(c) && ValueType(t) == DoubleKind
    ensures t in c ==> c[t] == DoubleV(r)
    ensures t !in c ==> r == default
  {
    if t in c then c[t].d else default
  }

  /** `(Integer) statusCache.getOrDefault(t, default)`. */
  function CachedInt(c: Cache, t: StatusType, default: int): (r: int)
    requires WellTyped(c) && ValueType(t) == IntegerKind
    ensures t in c ==> c[t] == IntV(r)
    ensures t !in c ==> r == default
  {
    if t in c then c[t].i else default
  }

  /** `(Long) statusCache.getOrDefault(t, default)`. */
  function CachedLong(c: Cache, t: StatusType, default: int): (r: int)
    requires WellTyped(c) && ValueType(t) == LongKind
    ensures t in c ==> c[t] == LongV(r)
    ensures t !in c ==> r == default
  {
    if t in c then c[t].l else default
  }

  /** `(String) statusCache.getOrDefault(t, default)`; a null default stays null. */
  function CachedString(c: Cache, t: StatusType, default: Option<string>): (r: Option<string>)
    requires WellTyped(c) && ValueType(t) == StringKind
    ensures t in c ==> r.Some? && c[t] == StrV(r.value)
    ensures t !in c ==> r == default
  {
    if t in c then Some(c[t].s) else default
  }

  /** The snapshot keys that `fromKey` sends to CUSTOM. */
  function CustomSources(data: map<string, Value>, processed: set<string>): set<string>
  {
    Search.Filter(processed, IsCustomKey)
  }

  /** A key that `fromKey` sends to CUSTOM. */
  predicate IsCustomKey(k: string)
  {
    FromKey(k) == Custom
  }

  /** A type other than CUSTOM after the merge: the validated value of its own key if applied, else as before. */
  ghost predicate KnownEntrySynced(before: Cache, data: map<string, Value>, processed: set<string>, after: Cache, t: StatusType)
    requires processed <= data.Keys
  {
    EntryAt(after, t) == (if Key(t) in processed then EntryAt(Update(before, t, data[Key(t)]), t) else EntryAt(before, t))
  }

  /** CUSTOM after the merge: the value of one of the keys sent there, or as before when there was none. */
  ghost predicate CustomEntrySynced(before: Cache, data: map<string, Value>, processed: set<string>, after: Cache)
    requires processed <= data.Keys
  {
    && (CustomSources(data, processed) == {} ==> EntryAt(after, Custom) == EntryAt(before, Custom))
    && (CustomSources(data, processed) != {} ==>
          exists k :: k in CustomSources(data, processed) && EntryAt(after, Custom) == Some(data[k]))
  }

  /**
   * What `syncFromBackend` has achieved once the snapshot keys in `processed` have been applied
   * through `updateStatus(fromKey(key), value)`, in whatever order the map yields them:
   * a type other than CUSTOM receives the validated value of its own key, if that key was
   * applied, and is otherwise as before; CUSTOM holds the value of one of the keys that
   * `fromKey` sent there (the one applied last), or is as before when there was none.
   */
  ghost predicate SyncedFrom(before: Cache, data: map<string, Value>, processed: set<string>, after: Cache)
    requires processed <= data.Keys
  {
    KnownSynced(before, data, processed, after) && CustomEntrySynced(before, data, processed, after)
  }

  /** The part of `SyncedFrom` about the types other than CUSTOM. */
  ghost predicate KnownSynced(before: Cache, data: map<string, Value>, processed: set<string>, after: Cache)
    requires processed <= data.Keys
  {
    forall t :: t != Custom ==> KnownEntrySynced(before, data, processed, after, t)
  }

  lemma SyncedFromNothing(before: Cache, data: map<string, Value>)
    ensures SyncedFrom(before, data, {}, before)
  {
    assert CustomSources(data, {}) == {};
  }

  /** Only the type `fromKey` picks has the key. */
  lemma OtherTypesLackKey(u: StatusType, key: string)
    requires u != FromKey(key)
    ensures Key(u) != key
  {
    if Key(u) == key {
      FromKeyRoundTrip(u);
    }
  }

  lemma {:induction false} SyncStepKnown(before: Cache, data: map<string, Value>, processed: set<string>, c: Cache, key: string, u: StatusType)
    requires processed <= data.Keys && key in data && key !in processed && u != Custom
    requires KnownEntrySynced(before, data, processed, c, u)
    ensures KnownEntrySynced(before, data, processed + {key}, Update(c, FromKey(key), data[key]), u)
  {
    var t := FromKey(key);
    UpdateWritesOnlyValidValues(c, t, data[key]);
    if u != t {
      OtherTypesLackKey(u, key);
    }
  }

  lemma CustomSourcesGrow(data: map<string, Value>, processed: set<string>, key: string)
    ensures FromKey(key) == Custom ==> CustomSources(data, processed + {key}) == CustomSources(data, processed) + {key}
    ensures FromKey(key) != Custom ==> CustomSources(data, processed + {key}) == CustomSources(data, processed)
  {
    Search.FilterAdd(processed, key, IsCustomKey);
  }

  lemma {:induction false} SyncStepCustom(before: Cache, data: map<string, Value>, processed: set<string>, c: Cache, key: string)
    requires processed <= data.Keys && key in data && key !in processed
    requires CustomEntrySynced(before, data, processed, c)
    ensures CustomEntrySynced(before, data, processed + {key}, Update(c, FromKey(key), data[key]))
  {
    var t := FromKey(key);
    var p' := processed + {key};
    CustomSourcesGrow(data, processed, key);
    if t == Custom {
      CustomWriteLands(c, data[key]);
      assert key in CustomSources(data, p');
    } else {
      OtherWriteKeepsCustom(c, t, data[key]);
      if CustomSources(data, processed) != {} {
        var k :| k in CustomSources(data, processed) && EntryAt(c, Custom) == Some(data[k]);
        assert k in CustomSources(data, p');
      }
    }
  }

  /** CUSTOM accepts every value, so a write to it always lands. */
  lemma CustomWriteLands(c: Cache, v: Value)
    ensures EntryAt(Update(c, Custom, v), Custom) == Some(v)
  {
  }

  /** A write to another type leaves CUSTOM as it was. */
  lemma OtherWriteKeepsCustom(c: Cache, t: StatusType, v: Value)
    requires t != Custom
    ensures EntryAt(Update(c, t, v), Custom) == EntryAt(c, Custom)
  {
  }

  /** Applying one more snapshot entry through `updateStatus(fromKey(key), value)` extends the merge by that key. */
  lemma {:induction false} SyncStep(before: Cache, data: map<string, Value>, processed: set<string>, c: Cache, key: string)
    requires processed <= data.Keys && key in data && key !in processed
    requires SyncedFrom(before, data, processed, c)
    ensures SyncedFrom(before, data, processed + {key}, Update(c, FromKey(key), data[key]))
  {
    forall u | u != Custom
      ensures KnownEntrySynced(before, data, processed + {key}, Update(c, FromKey(key), data[key]), u)
    {
      SyncStepKnown(before, data, processed, c, key, u);
    }
    SyncStepCustom(before, data, processed, c, key);
  }

  /** A merge never breaks the kind discipline: every value it stores passed validation. */
  lemma {:induction false} SyncKeepsWellTyped(before: Cache, data: map<string, Value>, after: Cache)
    requires WellTyped(before)
    requires KnownSynced(before, data, data.Keys, after)
    ensures WellTyped(after)
  {
    forall t | t in after ensures IsValidValue(t, Some(after[t])) {
      if t != Custom {
        SyncedEntryValid(before, data, after, t);
      }
    }
  }

  /** One merged entry other than CUSTOM: either the validated new value or the old, well-typed one. */
  lemma SyncedEntryValid(before: Cache, data: map<string, Value>, after: Cache, t: StatusType)
    requires WellTyped(before) && t in after
    requires KnownEntrySynced(before, data, data.Keys, after, t)
    ensures IsValidValue(t, Some(after[t]))
  {
    if Key(t) in data {
      UpdateWritesOnlyValidValues(before, t, data[Key(t)]);
    }
  }

  /** Only CUSTOM depends on the order in which the snapshot is walked; every other entry is determined. */
  lemma SyncOrderMattersOnlyForCustom(before: Cache, data: map<string, Value>, a1: Cache, a2: Cache, t: StatusType)
    requires SyncedFrom(before, data, data.Keys, a1) && SyncedFrom(before, data, data.Keys, a2)
    requires t != Custom
    ensures EntryAt(a1, t) == EntryAt(a2, t)
  {
    assert KnownEntrySynced(before, data, data.Keys, a1, t);
    assert KnownEntrySynced(before, data, data.Keys, a2, t);
  }

  /** Arrival order decides: of two valid writes to one type, the later one is what the cache holds. */
  lemma LaterWriteWins(c: Cache, t: StatusType, first: Value, second: Value)
    requires IsValidValue(t, Some(second))
    ensures EntryAt(Update(Update(c, t, first), t, second), t) == Some(second)
  {
  }

  /** When exactly one snapshot key is unknown, CUSTOM ends up holding that key's value. */
  lemma {:induction false} SoleUnknownKeyLandsOnCustom(before: Cache, data: map<string, Value>, after: Cache, k: string)
    requires SyncedFrom(before, data, data.Keys, after)
    requires CustomSources(data, data.Keys) == {k}
    ensures EntryAt(after, Custom) == Some(data[k])
  {
    assert CustomEntrySynced(before, data, data.Keys, after);
    var j :| j in CustomSources(data, data.Keys) && EntryAt(after, Custom) == Some(data[j]);
    assert j == k;
  }
}
