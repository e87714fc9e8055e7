/**
 * The two halves of status replication put together: what a proxy makes of the messages the
 * Bukkit listener sends. Each lemma takes a message as the listener builds it, decodes it as the
 * proxy's JSON reader does, and states the proxy's cache entries and fired events once a Velocity
 * or Bungee proxy has handled it.
 */
module BackendToProxy {
  import opened Wrappers
  import opened Values
  import opened StatusTypes
  import opened StatusCache
  import opened Messages
  import opened Events
  import opened OnlineUsers
  import opened ProxyRelay
  import opened BukkitUsers
  import PlayerInfo
  import Locations
  import L = BukkitListener
  import VelocityApi
  import BungeeApi

  /** A location report is for the backend's own bookkeeping: no proxy cache entry changes and no proxy event fires. */
  lemma LocationReportChangesNoProxyState(online: seq<OnlineUser>, p: OnlineUser, before: Cache, uuid: Uuid, name: string,
                                          server: string, from: Locations.PlayerLocation, to: Locations.PlayerLocation, now: int)
    ensures var m := Decoded(CreateLocationChange(uuid, name, server, L.LocationData(from, to), now));
            && RelayedCache(before, m) == before
            && VelocityApi.IncomingEvents(online, p, m, before) == []
            && BungeeApi.IncomingEvents(online, p, m, before) == []
  {
  }

  /**
   * A death report reaches either proxy with the backend's death message, or "Player died" when
   * the backend had none, and with a killer only when the backend named one who is online there.
   */
  lemma DeathReportReachesProxies(online: seq<OnlineUser>, p: OnlineUser, before: Cache, uuid: Uuid, name: string,
                                  server: string, killerName: Option<string>, deathMessage: Option<string>, now: int)
    ensures var m := Decoded(L.DeathReport(uuid, name, server, killerName, deathMessage, now));
            && VelocityApi.IncomingEvents(online, p, m, before)
                 == [DeathFired(UuidOf(p), deathMessage.GetOr(DefaultDeathMessage), OtherDeath, KillerOf(online, m), VelocityApi.UnknownLocation)]
            && BungeeApi.IncomingEvents(online, p, m, before)
                 == [DeathBrief(UuidOf(p), KillerOf(online, m), Some(deathMessage.GetOr(DefaultDeathMessage)))]
            && (killerName.None? ==> KillerOf(online, m).None?)
            && (KillerOf(online, m).Some? ==> exists i :: 0 <= i < |online| && NameOf(online[i]) == killerName.value
                                                         && UuidOf(online[i]) == KillerOf(online, m).value)
  {
    DecodedAsSent(L.DeathReport(uuid, name, server, killerName, deathMessage, now));
  }

  /** Bungee passes the backend's respawn reason on; Velocity reports a NORMAL respawn at an unknown location. */
  lemma RespawnReportReachesProxies(online: seq<OnlineUser>, p: OnlineUser, before: Cache, uuid: Uuid, name: string,
                                    server: string, now: int)
    ensures var m := Decoded(L.RespawnReport(uuid, name, server, L.RespawnedReason, now));
            && BungeeApi.IncomingEvents(online, p, m, before) == [BungeeApi.IncomingEvents(online, p, m, before)[0]]
            && BungeeApi.IncomingEvents(online, p, m, before)[0] == RespawnBrief(UuidOf(p), L.RespawnedReason)
            && VelocityApi.IncomingEvents(online, p, m, before) == [RespawnFired(UuidOf(p), VelocityApi.UnknownLocation, Normal)]
  {
    var m := L.RespawnReport(uuid, name, server, L.RespawnedReason, now);
    DecodedAsSent(m);
    assert GetString(m, ReasonField) == Some(L.RespawnedReason);
  }

  /**
   * A damage report leaves the new and maximum health in the proxy's cache and fires a health
   * change with the backend's two readings: Velocity with reason OTHER, Bungee with the damage
   * cause's name.
   */
  lemma {:induction false} DamageReportReachesProxies(online: seq<OnlineUser>, p: OnlineUser, before: Cache, uuid: Uuid,
                                                     name: string, server: string, previous: real, next: real,
                                                     maxHealth: real, cause: string, now: int)
    ensures var m := Decoded(CreateHealthChange(uuid, name, server, previous, next, maxHealth, cause, now));
            && EntryAt(RelayedCache(before, m), StatusType.Health) == Some(DoubleV(next))
            && EntryAt(RelayedCache(before, m), StatusType.MaxHealth) == Some(DoubleV(maxHealth))
            && VelocityApi.IncomingEvents(online, p, m, before) == [HealthChangeFired(UuidOf(p), previous, next, maxHealth, OtherHealth, None)]
            && BungeeApi.IncomingEvents(online, p, m, before) == [HealthChangeNamed(UuidOf(p), previous, next, maxHealth, cause, None)]
  {
    DecodedAsSent(CreateHealthChange(uuid, name, server, previous, next, maxHealth, cause, now));
    HealthChangeRoundTrip(uuid, name, server, previous, next, maxHealth, cause, now);
    RelayedHealthRoundTrip(before, uuid, name, server, previous, next, maxHealth, cause, now);
  }

  /**
   * A status report reaches the proxy as it was sent iff its value reads back as itself: a String,
   * a Boolean or a Double does, an Integer, a Long or another object does not.
   */
  lemma {:induction false} StatusReportArrivesAsSent(uuid: Uuid, name: string, server: string, t: StatusType, v: Value,
                                                    reason: string, now: int)
    ensures Decoded(L.StatusReport(uuid, name, server, t, v, reason, now)) == L.StatusReport(uuid, name, server, t, v, reason, now)
            <==> ReadsBackAsItself(v)
  {
    var m := L.StatusReport(uuid, name, server, t, v, reason, now);
    DecodedAsSent(m);
    DecodedValues(m, ValueField);
  }

  /** After a game-mode report, the proxy's `getGameMode` is the mode the backend switched to. */
  lemma {:induction false} GameModeReportReadsBack(before: Cache, uuid: Uuid, name: string, server: string,
                                                  newMode: BukkitGameMode, now: int)
    requires WellTyped(before)
    ensures var m := Decoded(L.StatusReport(uuid, name, server, StatusType.GameMode, StrV(BukkitModeName(newMode)), L.GameModeReason, now));
            && WellTyped(RelayedCache(before, m))
            && PlayerInfo.FromName(CachedString(RelayedCache(before, m), StatusType.GameMode, Some("SURVIVAL")).value) == ModeOf(newMode)
  {
    var v := StrV(BukkitModeName(newMode));
    StatusReportArrivesAsSent(uuid, name, server, StatusType.GameMode, v, L.GameModeReason, now);
    RelayedStatusUpdateRoundTrip(before, uuid, name, server, StatusType.GameMode, v, L.GameModeReason, now);
    WrittenGameModeReadsBack(before, newMode);
  }

  /** Writing a Bukkit mode's name to GAMEMODE keeps the cache well typed, and `getGameMode` reads that mode back. */
  lemma WrittenGameModeReadsBack(before: Cache, newMode: BukkitGameMode)
    requires WellTyped(before)
    ensures var c := Update(before, StatusType.GameMode, StrV(BukkitModeName(newMode)));
            && WellTyped(c)
            && PlayerInfo.FromName(CachedString(c, StatusType.GameMode, Some("SURVIVAL")).value) == ModeOf(newMode)
  {
    var v := StrV(BukkitModeName(newMode));
    UpdateWritesOnlyValidValues(before, StatusType.GameMode, v);
    UpdateKeepsWellTyped(before, StatusType.GameMode, v);
    ModeNameReadsBack(newMode);
  }

  /** After a sneak or flight toggle report, the proxy's flag is the backend's new state. */
  lemma {:induction false} ToggleReportReadsBack(before: Cache, uuid: Uuid, name: string, server: string,
                                                t: StatusType, state: bool, reason: string, now: int)
    requires WellTyped(before) && (t == StatusType.Sneaking || t == StatusType.Flying)
    ensures var m := Decoded(L.StatusReport(uuid, name, server, t, BoolV(state), reason, now));
            && WellTyped(RelayedCache(before, m))
            && (CachedBool(RelayedCache(before, m), t) <==> state)
  {
    StatusReportArrivesAsSent(uuid, name, server, t, BoolV(state), reason, now);
    RelayedStatusUpdateRoundTrip(before, uuid, name, server, t, BoolV(state), reason, now);
    UpdateWritesOnlyValidValues(before, t, BoolV(state));
    UpdateKeepsWellTyped(before, t, BoolV(state));
  }

  /** "food_level" is no status type's key, so `fromKey` sends it to CUSTOM; likewise the two below. */
  lemma FoodLevelKeyIsUnknown()
    ensures FromKey("food_level") == StatusType.Custom
  {
    forall u ensures Key(u) != "food_level" {
      assert |Key(u)| != 10 || Key(u)[0] != 'f';
    }
    UnknownKeyIsCustom("food_level");
  }

  lemma ExperienceLevelKeyIsUnknown()
    ensures FromKey("experience_level") == StatusType.Custom
  {
    forall u ensures Key(u) != "experience_level" {
      assert |Key(u)| != 16;
    }
    UnknownKeyIsCustom("experience_level");
  }

  lemma GameModeKeyIsUnknown()
    ensures FromKey("game_mode") == StatusType.Custom
  {
    forall u ensures Key(u) != "game_mode" {
      assert |Key(u)| != 9 || Key(u)[0] != 'g';
    }
    UnknownKeyIsCustom("game_mode");
  }

  /** The eight keys of a sync snapshot as written, as the proxy decodes it. */
  lemma AsWrittenSnapshotKeys(p: BukkitPlayer, k: string)
    requires k in DecodedData(L.SnapshotAsWritten(p)).Keys
    ensures k in {"health", "max_health", "food_level", "experience_level", "game_mode", "sneaking", "flying", "world"}
  {
  }

  /** The five keys of the snapshot as written that are some status type's own key. */
  lemma MatchingKeyIsKnown(k: string)
    requires k in {"health", "max_health", "sneaking", "flying", "world"}
    ensures FromKey(k) != StatusType.Custom
  {
    var t := if k == "health" then StatusType.Health else if k == "max_health" then StatusType.MaxHealth
             else if k == "sneaking" then StatusType.Sneaking else if k == "flying" then StatusType.Flying else StatusType.World;
    assert Key(t) == k;
    FromKeyRoundTrip(t);
  }

  lemma RemainingKeys(k: string)
    requires k in {"health", "max_health", "food_level", "experience_level", "game_mode", "sneaking", "flying", "world"}
    requires k !in {"health", "max_health", "sneaking", "flying", "world"}
    ensures k == "food_level" || k == "experience_level" || k == "game_mode"
  {
  }

  /** Exactly three keys of the snapshot as written go to CUSTOM; the other five keep their types. */
  lemma {:induction false} AsWrittenCustomSource(p: BukkitPlayer, k: string)
    requires k in CustomSources(DecodedData(L.SnapshotAsWritten(p)), DecodedData(L.SnapshotAsWritten(p)).Keys)
    ensures k == "food_level" || k == "experience_level" || k == "game_mode"
  {
    AsWrittenSnapshotKeys(p, k);
    if k in {"health", "max_health", "sneaking", "flying", "world"} {
      MatchingKeyIsKnown(k);
      assert false;
    } else {
      RemainingKeys(k);
    }
  }

  /** A type other than CUSTOM whose key a synced snapshot lacks keeps its entry. */
  lemma UnsentTypeUnchanged(before: Cache, data: map<string, Value>, after: Cache, t: StatusType)
    requires KnownSynced(before, data, data.Keys, after)
    requires t != StatusType.Custom && Key(t) !in data
    ensures EntryAt(after, t) == EntryAt(before, t)
  {
    assert KnownEntrySynced(before, data, data.Keys, after, t);
  }

  /** A type other than CUSTOM whose key a synced snapshot holds, with a value of its kind, takes that value. */
  lemma SentTypeSynced(before: Cache, data: map<string, Value>, after: Cache, t: StatusType)
    requires KnownSynced(before, data, data.Keys, after)
    requires t != StatusType.Custom && Key(t) in data && IsValidValue(t, Some(data[Key(t)]))
    ensures EntryAt(after, t) == Some(data[Key(t)])
  {
    assert KnownEntrySynced(before, data, data.Keys, after, t);
    UpdateWritesOnlyValidValues(before, t, data[Key(t)]);
  }

  /** ... and one whose value is not of its kind is refused, so the type keeps its entry. */
  lemma RejectedTypeUnchanged(before: Cache, data: map<string, Value>, after: Cache, t: StatusType)
    requires KnownSynced(before, data, data.Keys, after)
    requires t != StatusType.Custom && Key(t) in data && !IsValidValue(t, Some(data[Key(t)]))
    ensures EntryAt(after, t) == EntryAt(before, t)
  {
    assert KnownEntrySynced(before, data, data.Keys, after, t);
    UpdateWritesOnlyValidValues(before, t, data[Key(t)]);
  }

  /** The value a type receives from a decoded snapshot that carries `v` under its key. */
  lemma SentValueSynced(before: Cache, data: map<string, Value>, after: Cache, t: StatusType, v: Value)
    requires KnownSynced(before, DecodedData(data), data.Keys, after)
    requires t != StatusType.Custom && Key(t) in data && data[Key(t)] == v
    ensures IsValidValue(t, Some(DecodedValue(v))) ==> EntryAt(after, t) == Some(DecodedValue(v))
    ensures !IsValidValue(t, Some(DecodedValue(v))) ==> EntryAt(after, t) == EntryAt(before, t)
  {
    DecodedDataAt(data, Key(t));
    if IsValidValue(t, Some(DecodedValue(v))) {
      SentTypeSynced(before, DecodedData(data), after, t);
    } else {
      RejectedTypeUnchanged(before, DecodedData(data), after, t);
    }
  }

  /** A snapshot holding a key that `fromKey` sends to CUSTOM leaves CUSTOM with the value of some such key. */
  lemma CustomSourceOf(before: Cache, data: map<string, Value>, after: Cache, k0: string) returns (k: string)
    requires SyncedFrom(before, data, data.Keys, after)
    requires k0 in data && FromKey(k0) == StatusType.Custom
    ensures k in data && FromKey(k) == StatusType.Custom && EntryAt(after, StatusType.Custom) == Some(data[k])
  {
    assert k0 in CustomSources(data, data.Keys);
    k :| k in CustomSources(data, data.Keys) && EntryAt(after, StatusType.Custom) == Some(data[k]);
  }

  /** A snapshot none of whose keys goes to CUSTOM leaves CUSTOM as it was. */
  lemma NoCustomSourceKeepsCustom(before: Cache, data: map<string, Value>, after: Cache)
    requires SyncedFrom(before, data, data.Keys, after)
    requires forall k :: k in data ==> FromKey(k) != StatusType.Custom
    ensures EntryAt(after, StatusType.Custom) == EntryAt(before, StatusType.Custom)
  {
    assert CustomSources(data, data.Keys) == {};
  }

  /** The three readings of the snapshot as written that go to CUSTOM, as the proxy decodes them. */
  lemma {:induction false} AsWrittenLookups(p: BukkitPlayer)
    ensures DecodedData(L.SnapshotAsWritten(p))["food_level"] == DoubleV(p.foodLevel as real)
    ensures DecodedData(L.SnapshotAsWritten(p))["experience_level"] == DoubleV(p.level as real)
    ensures DecodedData(L.SnapshotAsWritten(p))["game_mode"] == StrV(BukkitModeName(p.gameMode))
  {
    var data := L.SnapshotAsWritten(p);
    DecodedDataAt(data, "food_level");
    DecodedDataAt(data, "experience_level");
    DecodedDataAt(data, "game_mode");
  }

  /** The snapshot as written has none of the keys of FOOD, EXP_LEVEL and GAMEMODE. */
  lemma AsWrittenLacksLiveKeys(p: BukkitPlayer)
    ensures Key(StatusType.GameMode) !in L.SnapshotAsWritten(p)
    ensures Key(StatusType.FoodLevel) !in L.SnapshotAsWritten(p)
    ensures Key(StatusType.ExperienceLevel) !in L.SnapshotAsWritten(p)
  {
  }

  /**
   * The sync snapshot as written, decoded by the proxy, never reaches the proxy's FOOD,
   * EXP_LEVEL or GAMEMODE entries: those stay as they were, and CUSTOM ends up holding one of
   * the three readings instead, the two levels as Doubles.
   */
  lemma {:induction false} AsWrittenSnapshotMissesLiveTypes(p: BukkitPlayer, before: Cache, after: Cache)
    requires SyncedFrom(before, DecodedData(L.SnapshotAsWritten(p)), L.SnapshotAsWritten(p).Keys, after)
    ensures EntryAt(after, StatusType.GameMode) == EntryAt(before, StatusType.GameMode)
    ensures EntryAt(after, StatusType.FoodLevel) == EntryAt(before, StatusType.FoodLevel)
    ensures EntryAt(after, StatusType.ExperienceLevel) == EntryAt(before, StatusType.ExperienceLevel)
    ensures EntryAt(after, StatusType.Custom)
              in {Some(DoubleV(p.foodLevel as real)), Some(DoubleV(p.level as real)), Some(StrV(BukkitModeName(p.gameMode)))}
  {
    var data := DecodedData(L.SnapshotAsWritten(p));
    AsWrittenLacksLiveKeys(p);
    UnsentTypeUnchanged(before, data, after, StatusType.GameMode);
    UnsentTypeUnchanged(before, data, after, StatusType.FoodLevel);
    UnsentTypeUnchanged(before, data, after, StatusType.ExperienceLevel);
    GameModeKeyIsUnknown();
    var k := CustomSourceOf(before, data, after, "game_mode");
    AsWrittenCustomSource(p, k);
    AsWrittenLookups(p);
  }

  /**
   * The input that shows it: a creative-mode player whose proxy cache has no game mode yet is
   * still reported as SURVIVAL after a sync with the snapshot as written.
   */
  lemma AsWrittenSyncReportsSurvivalForCreative(p: BukkitPlayer, before: Cache, after: Cache)
    requires p.gameMode == BukkitCreative
    requires WellTyped(before) && StatusType.GameMode !in before
    requires SyncedFrom(before, DecodedData(L.SnapshotAsWritten(p)), L.SnapshotAsWritten(p).Keys, after)
    ensures WellTyped(after)
    ensures PlayerInfo.FromName(CachedString(after, StatusType.GameMode, Some("SURVIVAL")).value) == PlayerInfo.Survival
    ensures ModeOf(p.gameMode) == PlayerInfo.Creative
  {
    AsWrittenSnapshotMissesLiveTypes(p, before, after);
    SyncKeepsWellTyped(before, DecodedData(L.SnapshotAsWritten(p)), after);
    ModeNameReadsBack(BukkitSurvival);
  }

  /** Every key of the corrected snapshot is its type's own key, so none goes to CUSTOM. */
  lemma SnapshotKeyIsKnown(p: BukkitPlayer, k: string)
    requires k in L.Snapshot(p)
    ensures FromKey(k) != StatusType.Custom
  {
    var t :| t in {StatusType.Health, StatusType.MaxHealth, StatusType.FoodLevel, StatusType.ExperienceLevel,
                   StatusType.GameMode, StatusType.Sneaking, StatusType.Flying, StatusType.World} && Key(t) == k;
    FromKeyRoundTrip(t);
  }

  lemma SnapshotLookups(p: BukkitPlayer)
    ensures L.Snapshot(p)[Key(StatusType.Health)] == DoubleV(p.health)
    ensures L.Snapshot(p)[Key(StatusType.MaxHealth)] == DoubleV(p.maxHealth)
    ensures L.Snapshot(p)[Key(StatusType.FoodLevel)] == IntV(p.foodLevel)
    ensures L.Snapshot(p)[Key(StatusType.ExperienceLevel)] == IntV(p.level)
    ensures L.Snapshot(p)[Key(StatusType.GameMode)] == StrV(BukkitModeName(p.gameMode))
    ensures L.Snapshot(p)[Key(StatusType.Sneaking)] == BoolV(p.sneaking)
    ensures L.Snapshot(p)[Key(StatusType.Flying)] == BoolV(p.flying)
    ensures L.Snapshot(p)[Key(StatusType.World)] == StrV(p.location.world)
  {
  }

  /** The corrected snapshot's two health readings reach the proxy's HEALTH and MAX_HEALTH. */
  lemma {:induction false} SnapshotSyncsHealth(p: BukkitPlayer, before: Cache, after: Cache)
    requires KnownSynced(before, DecodedData(L.Snapshot(p)), L.Snapshot(p).Keys, after)
    ensures EntryAt(after, StatusType.Health) == Some(DoubleV(p.health))
    ensures EntryAt(after, StatusType.MaxHealth) == Some(DoubleV(p.maxHealth))
  {
    SnapshotLookups(p);
    SentValueSynced(before, L.Snapshot(p), after, StatusType.Health, DoubleV(p.health));
    SentValueSynced(before, L.Snapshot(p), after, StatusType.MaxHealth, DoubleV(p.maxHealth));
  }

  /**
   * The corrected snapshot's food and experience levels arrive as Doubles, which FOOD and
   * EXP_LEVEL refuse: both keep their entries even with the right keys.
   */
  lemma {:induction false} SnapshotSyncsLevels(p: BukkitPlayer, before: Cache, after: Cache)
    requires KnownSynced(before, DecodedData(L.Snapshot(p)), L.Snapshot(p).Keys, after)
    ensures EntryAt(after, StatusType.FoodLevel) == EntryAt(before, StatusType.FoodLevel)
    ensures EntryAt(after, StatusType.ExperienceLevel) == EntryAt(before, StatusType.ExperienceLevel)
  {
    SnapshotLookups(p);
    SentValueSynced(before, L.Snapshot(p), after, StatusType.FoodLevel, IntV(p.foodLevel));
    SentValueSynced(before, L.Snapshot(p), after, StatusType.ExperienceLevel, IntV(p.level));
  }

  /** The corrected snapshot's game mode, two flags and world reach the proxy's entries of those types. */
  lemma {:induction false} SnapshotSyncsStates(p: BukkitPlayer, before: Cache, after: Cache)
    requires KnownSynced(before, DecodedData(L.Snapshot(p)), L.Snapshot(p).Keys, after)
    ensures EntryAt(after, StatusType.GameMode) == Some(StrV(BukkitModeName(p.gameMode)))
    ensures EntryAt(after, StatusType.Sneaking) == Some(BoolV(p.sneaking))
    ensures EntryAt(after, StatusType.Flying) == Some(BoolV(p.flying))
    ensures EntryAt(after, StatusType.World) == Some(StrV(p.location.world))
  {
    SnapshotLookups(p);
    SentValueSynced(before, L.Snapshot(p), after, StatusType.GameMode, StrV(BukkitModeName(p.gameMode)));
    SentValueSynced(before, L.Snapshot(p), after, StatusType.Sneaking, BoolV(p.sneaking));
    SentValueSynced(before, L.Snapshot(p), after, StatusType.Flying, BoolV(p.flying));
    SentValueSynced(before, L.Snapshot(p), after, StatusType.World, StrV(p.location.world));
  }

  /** ... and CUSTOM and every type the snapshot does not carry keep their entries. */
  lemma {:induction false} SnapshotSyncTouchesNothingElse(p: BukkitPlayer, before: Cache, after: Cache)
    requires SyncedFrom(before, DecodedData(L.Snapshot(p)), L.Snapshot(p).Keys, after)
    ensures EntryAt(after, StatusType.Custom) == EntryAt(before, StatusType.Custom)
    ensures forall t :: Key(t) !in L.Snapshot(p) && t != StatusType.Custom ==> EntryAt(after, t) == EntryAt(before, t)
  {
    var data := DecodedData(L.Snapshot(p));
    forall t | Key(t) !in data && t != StatusType.Custom
      ensures EntryAt(after, t) == EntryAt(before, t)
    {
      UnsentTypeUnchanged(before, data, after, t);
    }
    forall k | k in data
      ensures FromKey(k) != StatusType.Custom
    {
      SnapshotKeyIsKnown(p, k);
    }
    NoCustomSourceKeepsCustom(before, data, after);
  }

  /** With the corrected snapshot, the proxy's `getGameMode` after a sync is the backend's live mode. */
  lemma {:induction false} SyncedGameModeReadsBack(p: BukkitPlayer, before: Cache, after: Cache)
    requires WellTyped(before)
    requires SyncedFrom(before, DecodedData(L.Snapshot(p)), L.Snapshot(p).Keys, after)
    ensures WellTyped(after)
    ensures PlayerInfo.FromName(CachedString(after, StatusType.GameMode, Some("SURVIVAL")).value) == ModeOf(p.gameMode)
  {
    SnapshotSyncsStates(p, before, after);
    SyncKeepsWellTyped(before, DecodedData(L.Snapshot(p)), after);
    ModeNameReadsBack(p.gameMode);
  }
}
