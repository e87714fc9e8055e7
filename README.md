# HuskChat player status replication and event-gated chat logic, in Dafny

This project models the core of HuskChat's extended API: the player-status vocabulary and its
wire keys, the `PlayerStatusMessage` envelope the proxy and the game servers exchange on the
`huskchat:player_status` plugin channel, the per-platform users with their status caches
(Velocity, BungeeCord, Bukkit, the console), the proxies' message handlers and expiry tasks,
the Bukkit listener that reports game state to the proxy and answers sync requests, and the
platform-independent gates around chat: channel switching, chat-command execution and
permission checks, chat conditions and status-change events.

Files, one module each (all under `src/`):

| file | module | what it holds |
|---|---|---|
| wrappers.dfy | Wrappers, Search | `Option`, `Result`, failure kinds; first-match search and order-keeping filtering over a sequence |
| text.dfy | Text | ASCII lower-casing, prefix tests, decimal rendering of integers |
| status_types.dfy | Values, StatusTypes | boxed Java values and classes; `StatusType` with keys, kinds, `fromKey`, `isValidValue` |
| status_cache.dfy | StatusCache | the status cache: defaults, validated writes, typed reads, the `syncFromBackend` merge |
| messages.dfy | Messages | `PlayerStatusMessage`, its message types, factories, typed `getData`, handler field reads, what JSON decoding does to data values |
| commands.dfy | Commands | `ChatCommandEvent.CommandType`, aliases, `fromCommand` |
| locations.dfy | Locations | `PlayerLocation` defaults, chunk and region ids, distances, `BungeePlayerLocation` |
| player_info.dfy | PlayerInfo | health and hunger predicates, `GameMode` names and `fromName` |
| console_user.dfy | Console | `ConsoleUser` |
| velocity_user.dfy, bungee_user.dfy, bukkit_user.dfy | VelocityUsers, BungeeUsers, BukkitUsers | the platform users as classes over their status caches |
| online_user.dfy | OnlineUsers | `OnlineUser` as one of the four users, with lookups by UUID and name |
| events.dfy | Events | the event vocabulary and the record of fired events |
| extended_api.dfy | ExtendedApi | `HuskChatExtendedAPI`: channel switch, commands, permissions, chat conditions, status gate |
| velocity_events.dfy | VelocityEvents | the never-cancelled event stubs the Velocity provider returns |
| bukkit_events.dfy | BukkitEvents | the mutable Bukkit event classes |
| transport.dfy | Transport | plugin messages sent to a server or to the proxy |
| proxy_relay.dfy, proxy_regions.dfy | ProxyRelay, ProxyRegions | what the two proxies share: broadcast, cache effect of a handled message, server-level regions |
| velocity_api.dfy, bungee_api.dfy, bukkit_api.dfy | VelocityApi, BungeeApi, BukkitApi | the three platform APIs |
| bukkit_listener.dfy | BukkitListener | `BukkitPlayerStatusListener` |
| backend_to_proxy.dfy | BackendToProxy | end-to-end properties: what a proxy makes of what the listener sends |

Every user whose fields the source updates (the platform users, the APIs with their pending
tasks and outboxes, the listener with its last-known locations and health, the Bukkit events)
is a `class`; the values it holds (messages, locations, statuses) are datatypes. Side effects
that leave the process are recorded: fired events are appended to the API's `events` log, and
plugin messages to an `outbox`. What the event listeners decide (cancel, rewrite) is a parameter
of the operation that fires the event. The clock is a `now` parameter.

## Model

| member | source | states |
|---|---|---|
| StatusTypes.FromKey | common/src/main/java/net/william278/huskchat/event/PlayerStatusChangeEvent.java:193-200 | the type found has exactly the given key, or it is CUSTOM and no type has that key |
| StatusTypes.FromKeyRoundTrip | common/src/main/java/net/william278/huskchat/event/PlayerStatusChangeEvent.java:170-200 | every type's key leads back to that type |
| StatusTypes.KeysDistinct | common/src/main/java/net/william278/huskchat/event/PlayerStatusChangeEvent.java:103-153 | no two status types share a key |
| StatusTypes.NullIsValidForEveryType | common/src/main/java/net/william278/huskchat/event/PlayerStatusChangeEvent.java:209-214 | a null value is valid for every type |
| StatusTypes.ValidityIsDeclaredKind | common/src/main/java/net/william278/huskchat/event/PlayerStatusChangeEvent.java:209-214 | CUSTOM accepts every value; any other type accepts a value iff it is an instance of the declared class (and that class is not Object) |
| StatusTypes.PermanentIsNotTemporary | common/src/main/java/net/william278/huskchat/event/PlayerStatusChangeEvent.java:91-93 | the permanent duration -1 is not temporary |
| StatusCache.DefaultStatuses | velocity/src/main/java/net/william278/huskchat/user/VelocityUser.java:53-61 | a new cache holds AWAY, COMBAT, MUTED, BUSY, VANISHED, each false, and nothing else |
| StatusCache.WithProxyReadings | velocity/src/main/java/net/william278/huskchat/user/VelocityUser.java:197-207 | the overlay both proxies' `getAllStatuses` share: SERVER and PING take the live readings, every other entry is kept, and a well-typed cache stays well typed |
| StatusCache.DefaultsWellTyped | bungee/src/main/java/net/william278/huskchat/user/BungeeUser.java:50-65 | the initial cache obeys every type's declared class |
| StatusCache.UpdateWritesOnlyValidValues | velocity/src/main/java/net/william278/huskchat/user/VelocityUser.java:261-271 | `updateStatus` stores the value iff it is valid for the type, and no other entry changes |
| StatusCache.UpdateKeepsWellTyped | bungee/src/main/java/net/william278/huskchat/user/BungeeUser.java:255-265 | a validated write keeps every cached value of its declared class |
| StatusCache.Remove | velocity/src/main/java/net/william278/huskchat/user/VelocityUser.java:273-281 | the removed type is absent and every other entry is unchanged |
| StatusCache.RemoveKeepsWellTyped | bungee/src/main/java/net/william278/huskchat/user/BungeeUser.java:267-275 | removal keeps the cache well typed |
| StatusCache.CachedBool | bukkit/src/main/java/net/william278/huskchat/user/BukkitUser.java:145-150 | the boolean getter is true exactly when `true` is cached |
| StatusCache.CachedDouble | velocity/src/main/java/net/william278/huskchat/user/VelocityUser.java:149-153 | the cached Double when present, otherwise the default |
| StatusCache.CachedInt | velocity/src/main/java/net/william278/huskchat/user/VelocityUser.java:149-153 | the cached Integer when present, otherwise the default |
| StatusCache.CachedLong | velocity/src/main/java/net/william278/huskchat/user/VelocityUser.java:149-153 | the cached Long when present, otherwise the default |
| StatusCache.CachedString | velocity/src/main/java/net/william278/huskchat/user/VelocityUser.java:149-153 | the cached String when present, otherwise the (possibly null) default |
| StatusCache.SyncedFromNothing | velocity/src/main/java/net/william278/huskchat/user/VelocityUser.java:283-295 | before any snapshot entry is applied the merge invariant holds of the unchanged cache |
| StatusCache.SyncStep | velocity/src/main/java/net/william278/huskchat/user/VelocityUser.java:283-295 | applying one more snapshot entry through `updateStatus(fromKey(key), value)` preserves the merge invariant |
| StatusCache.SyncKeepsWellTyped | bungee/src/main/java/net/william278/huskchat/user/BungeeUser.java:277-289 | a completed merge leaves the cache well typed |
| StatusCache.SyncOrderMattersOnlyForCustom | bungee/src/main/java/net/william278/huskchat/user/BungeeUser.java:277-289 | two merges of the same snapshot in different orders agree on every type but CUSTOM |
| StatusCache.LaterWriteWins | velocity/src/main/java/net/william278/huskchat/user/VelocityUser.java:261-271 | of two valid writes to one type the later one is what the cache holds |
| StatusCache.SoleUnknownKeyLandsOnCustom | velocity/src/main/java/net/william278/huskchat/user/VelocityUser.java:283-295 | when exactly one snapshot key is unknown, CUSTOM ends up holding its value |
| Messages.MessageTypeFromKey | common/src/main/java/net/william278/huskchat/network/PlayerStatusMessage.java:198-210 | the type with that key, or an IllegalArgumentException naming the key iff no type has it |
| Messages.MessageTypeRoundTrip | common/src/main/java/net/william278/huskchat/network/PlayerStatusMessage.java:193-210 | every message type's key reads back as that type |
| Messages.TypeKeysDistinct | common/src/main/java/net/william278/huskchat/network/PlayerStatusMessage.java:129-210 | no two message types share a key |
| Messages.GetDataAs | common/src/main/java/net/william278/huskchat/network/PlayerStatusMessage.java:117-125 | a value comes back iff the key is present and its value is of the requested class |
| Messages.GetString | common/src/main/java/net/william278/huskchat/network/PlayerStatusMessage.java:117-125 | a string comes back iff a String is stored under the key, and it is that string |
| Messages.GetDouble | common/src/main/java/net/william278/huskchat/network/PlayerStatusMessage.java:117-125 | a number comes back iff a Double is stored under the key, and it is that number |
| Messages.CreateStatusUpdate | common/src/main/java/net/william278/huskchat/network/PlayerStatusMessage.java:213-227 | a STATUS_UPDATE with the type's key, the value and the reason; a NullPointerException iff the value is null |
| Messages.CreateHealthChange | common/src/main/java/net/william278/huskchat/network/PlayerStatusMessage.java:229-244 | a HEALTH_CHANGE whose data is exactly the three health readings as Doubles and the reason as a String, under their four keys |
| Messages.CreateLocationChange | common/src/main/java/net/william278/huskchat/network/PlayerStatusMessage.java:246-254 | a LOCATION_CHANGE carrying the given map unchanged |
| Messages.CreateSyncRequest | common/src/main/java/net/william278/huskchat/network/PlayerStatusMessage.java:256-264 | a SYNC_REQUEST with no data |
| Messages.CreateSyncResponse | common/src/main/java/net/william278/huskchat/network/PlayerStatusMessage.java:266-270 | a SYNC_RESPONSE carrying the given snapshot unchanged |
| Messages.ReadStatusUpdate | velocity/src/main/java/net/william278/huskchat/api/VelocityHuskChatExtendedAPI.java:173-194 | the handler proceeds iff `status_type` and `reason` are Strings and `value` is present, and reads `fromKey` of the key |
| Messages.StatusUpdateRoundTrip | common/src/main/java/net/william278/huskchat/network/PlayerStatusMessage.java:213-227 | a status update built from a non-null value reads back as the type, value and reason it was built from |
| Messages.ReadHealthChange | velocity/src/main/java/net/william278/huskchat/api/VelocityHuskChatExtendedAPI.java:196-213 | the handler proceeds iff three Doubles and a String reason are present, and then reads exactly the values under the four keys |
| Messages.HealthChangeRoundTrip | common/src/main/java/net/william278/huskchat/network/PlayerStatusMessage.java:229-244 | a health change reads back as the numbers and reason it was built from |
| Messages.DecodedValue | bukkit/src/main/java/net/william278/huskchat/BukkitHuskChat.java:80 | a value read back by the default `Gson` is one that reads back as itself (a String, Boolean, Double or JSON object), and it is the value sent iff the value sent was already one |
| Messages.Decoded | velocity/src/main/java/net/william278/huskchat/listener/VelocityPlayerStatusListener.java:57-61 | the proxy's JSON reading keeps the envelope and the data keys, and leaves no Integer, no Long and no object other than a JSON object among the data values |
| Messages.DecodedValues | common/src/main/java/net/william278/huskchat/network/PlayerStatusMessage.java:50-51 | a data value arrives unchanged iff it is a String, Boolean, Double or JSON object; an Integer or a Long arrives as the Double of its value, and any other object as a JSON object |
| Messages.DecodedKeepsStringsAndDoubles | bungee/src/main/java/net/william278/huskchat/listener/BungeePlayerStatusListener.java:62 | after decoding, a String read sees what was sent, a Double read sees every Double sent, and an Integer or Long sent is read as a Double |
| Messages.DecodedAsSent | velocity/src/main/java/net/william278/huskchat/listener/VelocityPlayerStatusListener.java:59 | a message arrives exactly as sent iff every data value is a String, Boolean, Double or JSON object; one carrying an Integer, a Long or another object arrives changed |
| Messages.DecodedIdempotent | velocity/src/main/java/net/william278/huskchat/listener/VelocityPlayerStatusListener.java:59 | decoding a decoded message changes nothing |
| Commands.GetAliases | common/src/main/java/net/william278/huskchat/event/ChatCommandEvent.java:179-181 | a fresh array holding exactly the type's aliases |
| Commands.Normalize | common/src/main/java/net/william278/huskchat/event/ChatCommandEvent.java:191-205 | the normalised command always starts with "/" |
| Commands.FromCommand | common/src/main/java/net/william278/huskchat/event/ChatCommandEvent.java:191-205 | the normalised command is an alias of the result, or the result is OTHER and no type lists it |
| Commands.AliasesDisjoint | common/src/main/java/net/william278/huskchat/event/ChatCommandEvent.java:124-164 | no string is an alias of two types |
| Commands.FromCommandCaseInsensitive | common/src/main/java/net/william278/huskchat/event/ChatCommandEvent.java:191-205 | a command and its lower-cased form classify alike |
| Commands.FromCommandSlashOptional | common/src/main/java/net/william278/huskchat/event/ChatCommandEvent.java:191-205 | "x" and "/x" classify alike |
| Commands.FromCommandFindsAlias | common/src/main/java/net/william278/huskchat/event/ChatCommandEvent.java:124-205 | every slash-prefixed alias classifies as the type that lists it |
| Commands.FromCommandNeverShortcut | common/src/main/java/net/william278/huskchat/event/ChatCommandEvent.java:158-205 | CHANNEL_SHORTCUT is never the result, since its alias has no slash |
| Locations.JavaIntCast | common/src/main/java/net/william278/huskchat/event/PlayerLocationChangeEvent.java:176-178 | the `(int)` cast truncates toward zero and saturates at the int range |
| Locations.ChunkOf | common/src/main/java/net/william278/huskchat/event/PlayerLocationChangeEvent.java:176-178 | `>> 4` of the truncated coordinate is its floor division by 16 |
| Locations.ChunkOfJustBelowZero | common/src/main/java/net/william278/huskchat/event/PlayerLocationChangeEvent.java:176-178 | -0.5 falls in chunk 0, because the cast truncates |
| Locations.RegionId | common/src/main/java/net/william278/huskchat/event/PlayerLocationChangeEvent.java:187-189 | `server:world:chunk` for the default, `server:world` for a BungeePlayerLocation |
| Locations.Distance | common/src/main/java/net/william278/huskchat/event/PlayerLocationChangeEvent.java:159-167 | -1 exactly across worlds or servers, otherwise a non-negative Euclidean measure |
| Locations.DistanceSymmetric | common/src/main/java/net/william278/huskchat/event/PlayerLocationChangeEvent.java:159-167 | the distance does not depend on the order of the two locations |
| Locations.MoveDistance | common/src/main/java/net/william278/huskchat/event/PlayerLocationChangeEvent.java:96-101 | -1 without a previous location or across worlds, otherwise the distance between the two |
| Locations.CrossServerMoveIsUnmeasured | common/src/main/java/net/william278/huskchat/event/PlayerLocationChangeEvent.java:85-101 | a move across servers is measured as -1 even in a same-named world |
| Locations.BungeeFrom | bungee/src/main/java/net/william278/huskchat/user/BungeePlayerLocation.java:58-60 | a proxy location at the origin with zero yaw and pitch on the given server and world |
| Locations.BungeeFromCoordinates | bungee/src/main/java/net/william278/huskchat/user/BungeePlayerLocation.java:76-80 | a proxy location equal to one with the given fields |
| Locations.BungeeDistanceTo | bungee/src/main/java/net/william278/huskchat/user/BungeePlayerLocation.java:126-138 | `Double.MAX_VALUE` exactly when the region ids differ, otherwise the Euclidean measure |
| Locations.BungeeDistanceWithinRegion | bungee/src/main/java/net/william278/huskchat/user/BungeePlayerLocation.java:120-138 | two proxy locations on one server and world are always measured |
| Locations.SameWorldIsSameServer | bungee/src/main/java/net/william278/huskchat/user/BungeePlayerLocation.java:140-148 | the same-world test implies the same-server test |
| Locations.BungeeEqualsIsFieldEquality | bungee/src/main/java/net/william278/huskchat/user/BungeePlayerLocation.java:156-168 | `equals` is reflexive and coincides with equality of all seven fields |
| PlayerInfo.FoodPercentage | common/src/main/java/net/william278/huskchat/user/PlayerInfo.java:284-286 | the food level as a share of 20, in percent |
| PlayerInfo.CriticalHealthIsLowHealth | common/src/main/java/net/william278/huskchat/user/PlayerInfo.java:244-256 | critical health is also low health when the maximum is not negative |
| PlayerInfo.FromName | common/src/main/java/net/william278/huskchat/user/PlayerInfo.java:356-364 | the mode named (by name or short name, ignoring case), or UNKNOWN and no mode is so named |
| PlayerInfo.NamesDistinct | common/src/main/java/net/william278/huskchat/user/PlayerInfo.java:296-344 | no lower-cased string names two modes |
| PlayerInfo.FromNameOfName | common/src/main/java/net/william278/huskchat/user/PlayerInfo.java:333-364 | every mode's name reads back as that mode |
| PlayerInfo.FromNameOfShortName | common/src/main/java/net/william278/huskchat/user/PlayerInfo.java:344-364 | every mode's short name reads back as that mode |
| PlayerInfo.FromNameCaseInsensitive | common/src/main/java/net/william278/huskchat/user/PlayerInfo.java:356-364 | a name and its lower-cased form read as the same mode |
| PlayerInfo.FromNameOfSurvivalDefault | velocity/src/main/java/net/william278/huskchat/user/VelocityUser.java:149-153 | the proxies' default "SURVIVAL" reads as SURVIVAL |
| Console.ConsoleUser.HasPermission | common/src/main/java/net/william278/huskchat/user/ConsoleUser.java:59-61 | the console holds every permission |
| Console.ConsoleUser.GetStatus | common/src/main/java/net/william278/huskchat/user/ConsoleUser.java:208-210 | the console has no status value of any type |
| Console.ConsoleUser.GetAllStatuses | common/src/main/java/net/william278/huskchat/user/ConsoleUser.java:214-216 | the console's status map is empty |
| Console.Wrap | common/src/main/java/net/william278/huskchat/user/ConsoleUser.java:76-78 | a user that the two console tests recognise, on the platform's server name |
| Console.ConsoleNameIgnoresCase | common/src/main/java/net/william278/huskchat/user/ConsoleUser.java:96-98 | a name is the console's iff its lower-cased form is "[console]" |
| Console.ConsoleNeverRestricted | common/src/main/java/net/william278/huskchat/user/ConsoleUser.java:192-202 | the console is never muted, in combat or away, and never refused a permission |
| VelocityUsers.VelocityUser.Adapt | velocity/src/main/java/net/william278/huskchat/user/VelocityUser.java:46-65 | a new user over the player, with the default cache |
| VelocityUsers.VelocityUser.ServerName | velocity/src/main/java/net/william278/huskchat/user/VelocityUser.java:74-81 | the connected server's name, or the empty string |
| VelocityUsers.VelocityUser.HasPermission | velocity/src/main/java/net/william278/huskchat/user/VelocityUser.java:88-99 | the default for a null or unset node, the explicit answer otherwise |
| VelocityUsers.VelocityUser.GetAllStatuses | velocity/src/main/java/net/william278/huskchat/user/VelocityUser.java:197-207 | the cache with the live server name and ping over SERVER and PING (`StatusCache.WithProxyReadings`), every other entry the cache's |
| VelocityUsers.VelocityUser.UpdateStatus | velocity/src/main/java/net/william278/huskchat/user/VelocityUser.java:261-271 | the cache becomes the validated write of the value |
| VelocityUsers.VelocityUser.RemoveStatus | velocity/src/main/java/net/william278/huskchat/user/VelocityUser.java:273-281 | the cache loses exactly that entry |
| VelocityUsers.VelocityUser.SyncFromBackend | velocity/src/main/java/net/william278/huskchat/user/VelocityUser.java:283-295 | after the loop every snapshot entry has been merged, as the merge invariant states |
| VelocityUsers.AllStatusesWellTyped | velocity/src/main/java/net/william278/huskchat/user/VelocityUser.java:197-207 | the overlay keeps every value of its declared class |
| VelocityUsers.FreshUserReadsDefaults | velocity/src/main/java/net/william278/huskchat/user/VelocityUser.java:53-61 | a new user is not muted, in combat, away or vanished, has health 20 of 20 and food 20, and is in SURVIVAL |
| BungeeUsers.BungeeUser.Adapt | bungee/src/main/java/net/william278/huskchat/user/BungeeUser.java:43-69 | a new user over the player, with the default cache |
| BungeeUsers.BungeeUser.ServerName | bungee/src/main/java/net/william278/huskchat/user/BungeeUser.java:78-81 | the connected server's name, or "unknown" |
| BungeeUsers.BungeeUser.HasPermission | bungee/src/main/java/net/william278/huskchat/user/BungeeUser.java:92-99 | the player's answer for a node in its permission collection, the default otherwise |
| BungeeUsers.BungeeUser.GetAllStatuses | bungee/src/main/java/net/william278/huskchat/user/BungeeUser.java:191-201 | the cache with the live server name and ping over SERVER and PING (`StatusCache.WithProxyReadings`), every other entry the cache's |
| BungeeUsers.BungeeUser.UpdateStatus | bungee/src/main/java/net/william278/huskchat/user/BungeeUser.java:255-265 | the cache becomes the validated write of the value |
| BungeeUsers.BungeeUser.RemoveStatus | bungee/src/main/java/net/william278/huskchat/user/BungeeUser.java:267-275 | the cache loses exactly that entry |
| BungeeUsers.BungeeUser.SyncFromBackend | bungee/src/main/java/net/william278/huskchat/user/BungeeUser.java:277-289 | after the loop every snapshot entry has been merged, as the merge invariant states |
| BungeeUsers.AllStatusesWellTyped | bungee/src/main/java/net/william278/huskchat/user/BungeeUser.java:191-201 | the overlay keeps every value of its declared class |
| BungeeUsers.FreshUserReadsDefaults | bungee/src/main/java/net/william278/huskchat/user/BungeeUser.java:50-65 | a new user is not muted, in combat, away or vanished, has health 20 of 20 and food 20, and is in SURVIVAL |
| BukkitUsers.LocationFrom | bukkit/src/main/java/net/william278/huskchat/user/BukkitPlayerLocation.java:63-64 | a default-method location with the server, world and coordinates of the Bukkit location |
| BukkitUsers.ModeOf | bukkit/src/main/java/net/william278/huskchat/user/BukkitUser.java:120-127 | every Bukkit mode maps to a known plugin mode |
| BukkitUsers.ModeOfInjective | bukkit/src/main/java/net/william278/huskchat/user/BukkitUser.java:120-127 | the four modes map one-to-one |
| BukkitUsers.ModeNameReadsBack | bukkit/src/main/java/net/william278/huskchat/user/BukkitUser.java:120-127 | the upper-case Bukkit name reads back through `fromName` as the mode `getGameMode` reports |
| BukkitUsers.BukkitUser.Adapt | bukkit/src/main/java/net/william278/huskchat/user/BukkitUser.java:39-58 | always a new user with a freshly seeded cache |
| BukkitUsers.BukkitUser.HasPermission | bukkit/src/main/java/net/william278/huskchat/user/BukkitUser.java:77-83 | the player's answer for a set node, otherwise the default or operator status |
| BukkitUsers.BukkitUser.GetAllStatuses | bukkit/src/main/java/net/william278/huskchat/user/BukkitUser.java:175-186 | the cache with live sneaking, flying, game mode, food and level over those types, every other entry the cache's |
| BukkitUsers.BukkitUser.UpdateStatus | bukkit/src/main/java/net/william278/huskchat/user/BukkitUser.java:257-267 | the cache becomes the validated write of the value |
| BukkitUsers.BukkitUser.RemoveStatus | bukkit/src/main/java/net/william278/huskchat/user/BukkitUser.java:269-271 | the cache loses exactly that entry |
| BukkitUsers.AllStatusesWellTyped | bukkit/src/main/java/net/william278/huskchat/user/BukkitUser.java:175-186 | the live overlay keeps every value of its declared class |
| BukkitUsers.HiddenFromSelfIsVanished | bukkit/src/main/java/net/william278/huskchat/user/BukkitUser.java:145-150 | a player who cannot see themselves is vanished whatever the cache says |
| OnlineUsers.FindByUuid | velocity/src/main/java/net/william278/huskchat/api/VelocityHuskChatExtendedAPI.java:152-171 | the first online user with the UUID, or none iff no user has it |
| OnlineUsers.FindByName | velocity/src/main/java/net/william278/huskchat/api/VelocityHuskChatExtendedAPI.java:224-241 | the first online user with exactly that name, or none iff no user has it |
| ExtendedApi.UnregisteredChannelChangesNothing | common/src/main/java/net/william278/huskchat/api/HuskChatExtendedAPI.java:71-101 | an unregistered channel: false, no event, membership unchanged |
| ExtendedApi.CancelledSwitchChangesNothing | common/src/main/java/net/william278/huskchat/api/HuskChatExtendedAPI.java:71-101 | a cancelled switch: false, only the switch event, membership unchanged |
| ExtendedApi.LeaveFiredIffPreviousChannel | common/src/main/java/net/william278/huskchat/api/HuskChatExtendedAPI.java:71-101 | a leave event fires iff the switch succeeds and the player had a channel |
| ExtendedApi.SuccessfulSwitchJoinsRewrittenChannel | common/src/main/java/net/william278/huskchat/api/HuskChatExtendedAPI.java:71-131 | a successful switch records the listeners' channel id, which `isPlayerInChannel` then reports, touches no other player, and ends with the join event for it |
| ExtendedApi.CommandSwitchTarget | common/src/main/java/net/william278/huskchat/api/HuskChatExtendedAPI.java:311-350 | a channel command with an argument switches to its first argument, and only such a command switches |
| ExtendedApi.FailureReason | common/src/main/java/net/william278/huskchat/api/HuskChatExtendedAPI.java:262-286 | only a failed command gets a failure reason |
| ExtendedApi.MissingArgumentsFail | common/src/main/java/net/william278/huskchat/api/HuskChatExtendedAPI.java:311-350 | a channel command without argument, or a private message without recipient and text, fails |
| ExtendedApi.CommandPermission | common/src/main/java/net/william278/huskchat/api/HuskChatExtendedAPI.java:296-309 | the four player commands are allowed by default, the three staff commands are not, the others are unchecked |
| ExtendedApi.ValidateCommandPermission | common/src/main/java/net/william278/huskchat/api/HuskChatExtendedAPI.java:296-309 | an unlisted command is allowed; a listed one asks its node with its default |
| ExtendedApi.ConsoleMayRunEveryCommand | common/src/main/java/net/william278/huskchat/api/HuskChatExtendedAPI.java:296-309 | the console passes every command check |
| ExtendedApi.StaffCommandsNeedExplicitGrant | common/src/main/java/net/william278/huskchat/api/HuskChatExtendedAPI.java:296-309 | on Velocity a command whose node is unset passes iff it is not a staff command |
| ExtendedApi.OperatorsMayRunStaffCommands | common/src/main/java/net/william278/huskchat/api/HuskChatExtendedAPI.java:296-309 | on Bukkit an operator passes every command whose node is not set on them |
| ExtendedApi.CheckChatConditions | common/src/main/java/net/william278/huskchat/api/HuskChatExtendedAPI.java:396-418 | allowed iff permitted, not muted and not restricted for health or combat; the first failing check in the order permission, mute, critical health, combat gives the reason, each of the four pinned to its own text |
| ExtendedApi.PlatformPoliciesCheckOnlyPermissionAndMute | common/src/main/java/net/william278/huskchat/api/HuskChatExtendedAPI.java:396-433 | with the platforms' policies only permission and mute can refuse |
| ExtendedApi.ConsoleMayAlwaysChat | common/src/main/java/net/william278/huskchat/api/HuskChatExtendedAPI.java:396-418 | the console may chat in every channel under every policy |
| ExtendedApi.PlayersIn | common/src/main/java/net/william278/huskchat/api/HuskChatExtendedAPI.java:111-117 | exactly the online users recorded in the channel, in the online list's order and each as often as it occurs there (the stream filter `Search.Keep`) |
| Search.KeepMembers | common/src/main/java/net/william278/huskchat/api/HuskChatExtendedAPI.java:111-117 | `filter(p).toList()` holds an element iff the list holds it and it satisfies `p` |
| Search.KeepAppend | common/src/main/java/net/william278/huskchat/api/HuskChatExtendedAPI.java:111-117 | filtering keeps the list's order: the filter of a concatenation is the concatenation of the filters |
| Search.KeepCounts | common/src/main/java/net/william278/huskchat/api/HuskChatExtendedAPI.java:111-117 | a kept element occurs as often as in the list, a dropped one not at all |
| ExtendedApi.HuskChatExtendedApi.Fire | common/src/main/java/net/william278/huskchat/api/HuskChatExtendedAPI.java:368-385 | the event is appended to the log and the membership is unchanged |
| ExtendedApi.HuskChatExtendedApi.GetPlayersInChannel | common/src/main/java/net/william278/huskchat/api/HuskChatExtendedAPI.java:111-117 | exactly the online users for which `isPlayerInChannel` holds, in the online list's order (`Search.Keep` over the membership store) |
| ExtendedApi.HuskChatExtendedApi.SwitchPlayerChannel | common/src/main/java/net/william278/huskchat/api/HuskChatExtendedAPI.java:71-101 | the result, the events fired and the new membership are those of the switch specification |
| ExtendedApi.HuskChatExtendedApi.ExecuteChatCommand | common/src/main/java/net/william278/huskchat/api/HuskChatExtendedAPI.java:262-350 | a cancelled PRE event ends it; otherwise the command runs on the PRE event's arguments, and the POST event gets the result and, on failure, the reason |
| ExtendedApi.HuskChatExtendedApi.StatusChangeGate | common/src/main/java/net/william278/huskchat/api/HuskChatExtendedAPI.java:368-385 | the change event fires with the previous value, and the update proceeds iff it was not cancelled |
| VelocityEvents.SwitchStub.Outcome | velocity/src/main/java/net/william278/huskchat/event/VelocityEventProvider.java:55-70 | the coordinator reads the stub's own cancel flag and channel id |
| VelocityEvents.CommandStub.Outcome | velocity/src/main/java/net/william278/huskchat/event/VelocityEventProvider.java:120-140 | the coordinator reads the stub's own cancel flag and arguments |
| VelocityEvents.SwitchSettersHaveNoEffect | velocity/src/main/java/net/william278/huskchat/event/VelocityEventProvider.java:55-70 | whatever a listener sets, a switch is not cancelled and keeps the requested channel |
| VelocityEvents.CommandMarkingHasNoEffect | velocity/src/main/java/net/william278/huskchat/event/VelocityEventProvider.java:120-140 | a command stays successful, without a reason, on its own arguments |
| VelocityEvents.FilterCannotBlockOrRewrite | velocity/src/main/java/net/william278/huskchat/event/VelocityEventProvider.java:98-118 | a filter listener can neither block a message nor change its text |
| VelocityEvents.DeathAndRespawnMessagePolicy | velocity/src/main/java/net/william278/huskchat/event/VelocityEventProvider.java:195-232 | death messages are always sent, to no channel; respawn messages never |
| VelocityEvents.VelocitySwitchCommitsRequestedChannel | velocity/src/main/java/net/william278/huskchat/event/VelocityEventProvider.java:55-70 | on Velocity a switch succeeds iff the channel is registered, and records the requested channel |
| VelocityEvents.VelocityCommandRunsOnOriginalArgs | velocity/src/main/java/net/william278/huskchat/event/VelocityEventProvider.java:120-140 | the PRE stub is never cancelled and keeps the original arguments |
| BukkitEvents.BukkitChannelSwitchEvent.constructor | bukkit/src/main/java/net/william278/huskchat/event/BukkitChannelSwitchEvent.java:38-45 | the event holds the given player, channels and reason |
| BukkitEvents.BukkitChannelSwitchEvent.SetNewChannelId | bukkit/src/main/java/net/william278/huskchat/event/BukkitChannelSwitchEvent.java:76-79 | the target channel becomes the given id |
| BukkitEvents.BukkitChatCommandEvent.constructor | bukkit/src/main/java/net/william278/huskchat/event/BukkitChatCommandEvent.java:40-49 | a fresh copy of the arguments, successful and without a reason |
| BukkitEvents.BukkitChatCommandEvent.GetArgs | bukkit/src/main/java/net/william278/huskchat/event/BukkitChatCommandEvent.java:75-78 | a fresh copy of the stored arguments, never the stored array itself |
| BukkitEvents.BukkitChatCommandEvent.SetArgs | bukkit/src/main/java/net/william278/huskchat/event/BukkitChatCommandEvent.java:80-83 | a fresh copy of the new arguments, never the caller's array; nothing else changes |
| BukkitEvents.BukkitChatCommandEvent.SetSuccessful | bukkit/src/main/java/net/william278/huskchat/event/BukkitChatCommandEvent.java:112-115 | the flag changes; nothing else does |
| BukkitEvents.BukkitChatCommandEvent.SetFailureReason | bukkit/src/main/java/net/william278/huskchat/event/BukkitChatCommandEvent.java:102-105 | the reason changes; nothing else does |
| BukkitEvents.CopyOf | bukkit/src/main/java/net/william278/huskchat/event/BukkitChatCommandEvent.java:75-83 | a fresh array with the same elements |
| BukkitEvents.ArgsAreIsolated | bukkit/src/main/java/net/william278/huskchat/event/BukkitChatCommandEvent.java:40-78 | writing into the array given to the constructor, or into one `getArgs` returned, leaves what the event reports equal to the arguments it was built with |
| BukkitEvents.BukkitMessageFilterEvent.constructor | bukkit/src/main/java/net/william278/huskchat/event/BukkitMessageFilterEvent.java:41-51 | the given texts and filter, not blocked, no reason |
| BukkitEvents.BukkitMessageFilterEvent.SetFilteredMessage | bukkit/src/main/java/net/william278/huskchat/event/BukkitMessageFilterEvent.java:82-85 | the filtered text changes; nothing else does |
| BukkitEvents.BukkitMessageFilterEvent.SetFilterReason | bukkit/src/main/java/net/william278/huskchat/event/BukkitMessageFilterEvent.java:105-108 | the reason changes; nothing else does |
| BukkitEvents.BukkitMessageFilterEvent.SetBlocked | bukkit/src/main/java/net/william278/huskchat/event/BukkitMessageFilterEvent.java:115-118 | the flag changes; nothing else does |
| BukkitEvents.BukkitPlayerDeathEvent.constructor | bukkit/src/main/java/net/william278/huskchat/event/BukkitPlayerDeathEvent.java:41-50 | the given death, sent by default, to no particular channel |
| BukkitEvents.BukkitPlayerDeathEvent.SetDeathMessage | bukkit/src/main/java/net/william278/huskchat/event/BukkitPlayerDeathEvent.java:75-78 | the message changes; nothing else does |
| BukkitEvents.BukkitPlayerDeathEvent.SetSendDeathMessage | bukkit/src/main/java/net/william278/huskchat/event/BukkitPlayerDeathEvent.java:103-106 | the flag changes; nothing else does |
| BukkitEvents.BukkitPlayerDeathEvent.SetDeathMessageChannel | bukkit/src/main/java/net/william278/huskchat/event/BukkitPlayerDeathEvent.java:114-117 | the channel changes; nothing else does |
| BukkitEvents.BukkitPlayerRespawnEvent.constructor | bukkit/src/main/java/net/william278/huskchat/event/BukkitPlayerRespawnEvent.java:39-46 | the given respawn, not sent by default, no channel |
| BukkitEvents.BukkitPlayerRespawnEvent.SetRespawnLocation | bukkit/src/main/java/net/william278/huskchat/event/BukkitPlayerRespawnEvent.java:71-74 | the location changes; nothing else does |
| BukkitEvents.BukkitPlayerRespawnEvent.SetSendRespawnMessage | bukkit/src/main/java/net/william278/huskchat/event/BukkitPlayerRespawnEvent.java:87-90 | the flag changes; nothing else does |
| BukkitEvents.BukkitPlayerRespawnEvent.SetRespawnMessageChannel | bukkit/src/main/java/net/william278/huskchat/event/BukkitPlayerRespawnEvent.java:98-101 | the channel changes; nothing else does |
| Transport.BroadcastTo | velocity/src/main/java/net/william278/huskchat/api/VelocityHuskChatExtendedAPI.java:118-127 | one send of the message per server, in the servers' order |
| Transport.BroadcastReachesExactlyTheServers | bungee/src/main/java/net/william278/huskchat/api/BungeeHuskChatExtendedAPI.java:116-125 | a broadcast reaches every listed server and no other, always with the same message |
| ProxyRelay.StatusBroadcast | velocity/src/main/java/net/william278/huskchat/api/VelocityHuskChatExtendedAPI.java:118-127 | nothing for a null value, otherwise one STATUS_UPDATE per server about the player |
| ProxyRelay.RelayedCache | velocity/src/main/java/net/william278/huskchat/api/VelocityHuskChatExtendedAPI.java:173-213 | only a complete STATUS_UPDATE or HEALTH_CHANGE changes the cache, and it stays well typed |
| ProxyRelay.RelayedStatusUpdateRoundTrip | bungee/src/main/java/net/william278/huskchat/api/BungeeHuskChatExtendedAPI.java:171-192 | a status update built by `createStatusUpdate` is, once handled, the same `updateStatus` call |
| ProxyRelay.RelayedHealthRoundTrip | bungee/src/main/java/net/william278/huskchat/api/BungeeHuskChatExtendedAPI.java:194-210 | a handled health change leaves exactly its new and maximum health in the cache |
| ProxyRelay.KillerOf | bungee/src/main/java/net/william278/huskchat/api/BungeeHuskChatExtendedAPI.java:220-235 | no killer without a name; a killer found is the first online user of that name; none iff no one online has it |
| ProxyRegions.NearbyOnServer | velocity/src/main/java/net/william278/huskchat/api/VelocityHuskChatExtendedAPI.java:298-304 | exactly the other online users on the same server, in the online list's order (`Search.Keep`) |
| ProxyRegions.NotNearSelf | bungee/src/main/java/net/william278/huskchat/api/BungeeHuskChatExtendedAPI.java:286-301 | a player is never among their own nearby players |
| ProxyRegions.ServerChannelIdIffSameServer | velocity/src/main/java/net/william278/huskchat/api/VelocityHuskChatExtendedAPI.java:314-331 | for radii with the same integer part, two players share a channel id iff they are on the same server |
| VelocityApi.IncomingEvents | velocity/src/main/java/net/william278/huskchat/api/VelocityHuskChatExtendedAPI.java:173-258 | at most one event, about the message's player, and none iff the message is not one the handler reports |
| VelocityApi.StatusUpdateFires | velocity/src/main/java/net/william278/huskchat/api/VelocityHuskChatExtendedAPI.java:173-194 | a complete status update for a Velocity user fires one change from the cached entry to the new value, with the message's reason and no duration |
| VelocityApi.DeathMessageDefault | velocity/src/main/java/net/william278/huskchat/api/VelocityHuskChatExtendedAPI.java:224-241 | a death without text is reported as "Player died"; one with a text keeps it |
| VelocityApi.RelayedUpdateReportsCachedPrevious | velocity/src/main/java/net/william278/huskchat/api/VelocityHuskChatExtendedAPI.java:173-194 | a relayed update fires a change event from the cached value to the value sent |
| VelocityApi.VelocityExtendedApi.BroadcastStatusUpdate | velocity/src/main/java/net/william278/huskchat/api/VelocityHuskChatExtendedAPI.java:118-127 | the outbox grows by the broadcast |
| VelocityApi.VelocityExtendedApi.UpdatePlayerStatusInternal | velocity/src/main/java/net/william278/huskchat/api/VelocityHuskChatExtendedAPI.java:67-85 | a Velocity user's cache is written, the change broadcast, and an expiry scheduled for a positive duration; other users are ignored |
| VelocityApi.VelocityExtendedApi.UpdatePlayerStatus | common/src/main/java/net/william278/huskchat/api/HuskChatExtendedAPI.java:368-385 | always true; the change event fires with the previous value and the platform update follows |
| VelocityApi.VelocityExtendedApi.RunExpiry | velocity/src/main/java/net/william278/huskchat/api/VelocityHuskChatExtendedAPI.java:67-85 | the status is removed and the change to null reported, but nothing is sent |
| VelocityApi.VelocityExtendedApi.HandlePlayerStatusMessage | velocity/src/main/java/net/william278/huskchat/api/VelocityHuskChatExtendedAPI.java:152-171 | dropped for an absent player; otherwise that player's cache and the event log change as specified, and no other user is touched |
| VelocityApi.VelocityExtendedApi.HandleFor | velocity/src/main/java/net/william278/huskchat/api/VelocityHuskChatExtendedAPI.java:152-171 | per message type: the cache effect and the events fired |
| VelocityApi.VelocityExtendedApi.HandleStatusUpdate | velocity/src/main/java/net/william278/huskchat/api/VelocityHuskChatExtendedAPI.java:173-194 | a complete update is written to a Velocity user and reported with the cached previous value |
| VelocityApi.VelocityExtendedApi.HandleHealthChange | velocity/src/main/java/net/william278/huskchat/api/VelocityHuskChatExtendedAPI.java:196-213 | a complete change writes HEALTH and MAX_HEALTH for a Velocity user and fires for anyone |
| VelocityApi.VelocityExtendedApi.RequestPlayerStatusSync | velocity/src/main/java/net/william278/huskchat/api/VelocityHuskChatExtendedAPI.java:268-287 | true iff a Velocity user on a server, and then a SYNC_REQUEST goes to that server |
| VelocityApi.VelocityExtendedApi.SwitchPlayerChannel | common/src/main/java/net/william278/huskchat/api/HuskChatExtendedAPI.java:71-101 | on Velocity a switch succeeds iff the channel is registered, and then the player is in it; the events fired (switch, then leave and join on success) and the new membership are those of the never-cancelled switch to the requested channel, so no other player's channel changes |
| VelocityApi.VelocityExtendedApi.ExecuteChatCommand | common/src/main/java/net/william278/huskchat/api/HuskChatExtendedAPI.java:262-350 | on Velocity a channel command succeeds iff its first argument names a registered channel; the events are PRE, the switch events of the never-cancelled switch to that argument, POST and the success mark, and membership changes only by that switch |
| BungeeApi.IncomingEvents | bungee/src/main/java/net/william278/huskchat/api/BungeeHuskChatExtendedAPI.java:171-250 | at most one event, about the message's player, and none iff the message is not one the handler reports |
| BungeeApi.HealthReasonReachesEvent | bungee/src/main/java/net/william278/huskchat/api/BungeeHuskChatExtendedAPI.java:194-210 | the backend's reason text reaches the health-change event |
| BungeeApi.RespawnReasonDefault | bungee/src/main/java/net/william278/huskchat/api/BungeeHuskChatExtendedAPI.java:237-243 | a respawn without a reason is reported as "Player respawned" |
| BungeeApi.BungeeExtendedApi.BroadcastStatusUpdate | bungee/src/main/java/net/william278/huskchat/api/BungeeHuskChatExtendedAPI.java:116-125 | the outbox grows by the broadcast |
| BungeeApi.BungeeExtendedApi.UpdatePlayerStatusInternal | bungee/src/main/java/net/william278/huskchat/api/BungeeHuskChatExtendedAPI.java:65-83 | a BungeeCord user's cache is written, the change broadcast, and an expiry scheduled for a positive duration; other users are ignored |
| BungeeApi.BungeeExtendedApi.UpdatePlayerStatus | common/src/main/java/net/william278/huskchat/api/HuskChatExtendedAPI.java:368-385 | true iff not cancelled; the change event fires with the previous value and only an uncancelled change reaches the cache |
| BungeeApi.BungeeExtendedApi.RunExpiry | bungee/src/main/java/net/william278/huskchat/api/BungeeHuskChatExtendedAPI.java:65-83 | the status is removed and the change to null reported, but nothing is sent |
| BungeeApi.BungeeExtendedApi.HandlePlayerStatusMessage | bungee/src/main/java/net/william278/huskchat/api/BungeeHuskChatExtendedAPI.java:150-169 | dropped for an absent player; otherwise that player's cache and the event log change as specified, and no other user is touched |
| BungeeApi.BungeeExtendedApi.HandleFor | bungee/src/main/java/net/william278/huskchat/api/BungeeHuskChatExtendedAPI.java:150-169 | per message type: the cache effect and the events fired |
| BungeeApi.BungeeExtendedApi.HandleStatusUpdate | bungee/src/main/java/net/william278/huskchat/api/BungeeHuskChatExtendedAPI.java:171-192 | a complete update is written to a BungeeCord user and reported with the cached previous value |
| BungeeApi.BungeeExtendedApi.HandleHealthChange | bungee/src/main/java/net/william278/huskchat/api/BungeeHuskChatExtendedAPI.java:194-210 | a complete change writes HEALTH and MAX_HEALTH for a BungeeCord user and fires for anyone |
| BungeeApi.BungeeExtendedApi.RequestPlayerStatusSync | bungee/src/main/java/net/william278/huskchat/api/BungeeHuskChatExtendedAPI.java:260-274 | false for other users, a NullPointerException for an unconnected one, otherwise a SYNC_REQUEST to its server and true |
| BukkitApi.Warnings | bukkit/src/main/java/net/william278/huskchat/api/BukkitHuskChatExtendedAPI.java:264-309 | one warning of the kind per throwing listener call, never more than the calls |
| BukkitApi.NoWarningsIffNoFailures | bukkit/src/main/java/net/william278/huskchat/api/BukkitHuskChatExtendedAPI.java:264-309 | a dispatch logs nothing iff no listener throws |
| BukkitApi.NearbyInWorld | bukkit/src/main/java/net/william278/huskchat/api/BukkitHuskChatExtendedAPI.java:230-241 | exactly the world's players within the radius, in the world's order and with their multiplicity (`Search.Keep`) |
| BukkitApi.NearbyIncludesSelf | bukkit/src/main/java/net/william278/huskchat/api/BukkitHuskChatExtendedAPI.java:230-241 | with a non-negative radius a player is among their own nearby players |
| BukkitApi.NegativeRadiusFindsNobody | bukkit/src/main/java/net/william278/huskchat/api/BukkitHuskChatExtendedAPI.java:230-241 | a negative radius finds nobody |
| BukkitApi.LocationChannelIffSameRegion | bukkit/src/main/java/net/william278/huskchat/api/BukkitHuskChatExtendedAPI.java:211-256 | for radii with the same integer part, two players share a channel id iff they are in the same region |
| BukkitApi.BukkitExtendedApi.constructor | bukkit/src/main/java/net/william278/huskchat/api/BukkitHuskChatExtendedAPI.java:45-54 | four empty listener lists, no warnings, no pending expiries |
| BukkitApi.BukkitExtendedApi.Register | bukkit/src/main/java/net/william278/huskchat/api/BukkitHuskChatExtendedAPI.java:91-119 | the listener is appended to its kind's list; nothing else changes |
| BukkitApi.BukkitExtendedApi.Unregister | bukkit/src/main/java/net/william278/huskchat/api/BukkitHuskChatExtendedAPI.java:121-159 | the first registration of the listener is dropped from its kind's list; nothing else changes |
| BukkitApi.BukkitExtendedApi.Dispatch | bukkit/src/main/java/net/william278/huskchat/api/BukkitHuskChatExtendedAPI.java:264-309 | every listener of the kind is called in order, and each throwing call logs one warning without stopping the rest |
| BukkitApi.BukkitExtendedApi.UpdatePlayerStatusInternal | bukkit/src/main/java/net/william278/huskchat/api/BukkitHuskChatExtendedAPI.java:163-177 | a Bukkit user's cache is written and an expiry scheduled `duration / 50` ticks later; nothing is broadcast |
| BukkitApi.BukkitExtendedApi.UpdatePlayerStatus | common/src/main/java/net/william278/huskchat/api/HuskChatExtendedAPI.java:368-385 | true iff not cancelled; only an uncancelled change reaches the cache |
| BukkitApi.BukkitExtendedApi.RunExpiry | bukkit/src/main/java/net/william278/huskchat/api/BukkitHuskChatExtendedAPI.java:163-177 | the status is removed and the change to null reported |
| BukkitApi.BukkitExtendedApi.GetNearbyPlayers | bukkit/src/main/java/net/william278/huskchat/api/BukkitHuskChatExtendedAPI.java:230-241 | nobody for a non-Bukkit user; otherwise the nearby players, each adapted afresh |
| BukkitApi.AdaptAll | bukkit/src/main/java/net/william278/huskchat/api/BukkitHuskChatExtendedAPI.java:239-240 | one new user with a fresh default cache per player, in the players' order |
| BukkitApi.RegisterThenUnregisterRestores | bukkit/src/main/java/net/william278/huskchat/api/BukkitHuskChatExtendedAPI.java:91-159 | registering and then unregistering a listener restores the list |
| BukkitListener.LocationData | bukkit/src/main/java/net/william278/huskchat/listener/BukkitPlayerStatusListener.java:285-302 | both worlds and both sets of coordinates, under their eight keys |
| BukkitListener.HealthAfterDamage | bukkit/src/main/java/net/william278/huskchat/listener/BukkitPlayerStatusListener.java:106-126 | the health after damage, never below zero |
| BukkitListener.DeathReport | bukkit/src/main/java/net/william278/huskchat/listener/BukkitPlayerStatusListener.java:313-325 | a PLAYER_DEATH whose death-message and killer entries read back as given |
| BukkitListener.RespawnReport | bukkit/src/main/java/net/william278/huskchat/listener/BukkitPlayerStatusListener.java:327-335 | a PLAYER_RESPAWN carrying just the reason |
| BukkitListener.StatusReport | bukkit/src/main/java/net/william278/huskchat/listener/BukkitPlayerStatusListener.java:337-343 | a status update from a non-null value always exists |
| BukkitListener.SnapshotAsWritten | bukkit/src/main/java/net/william278/huskchat/listener/BukkitPlayerStatusListener.java:240-248 | the snapshot's eight keys as the listener writes them |
| BukkitListener.Snapshot | bukkit/src/main/java/net/william278/huskchat/listener/BukkitPlayerStatusListener.java:240-248 | the snapshot under the status types' own keys (see Findings) |
| BukkitListener.FindPlayer | bukkit/src/main/java/net/william278/huskchat/listener/BukkitPlayerStatusListener.java:231-235 | the server's player with the UUID, or none iff no player has it |
| BukkitListener.ProxyUpdateTarget | bukkit/src/main/java/net/william278/huskchat/listener/BukkitPlayerStatusListener.java:257-281 | a target iff the player is online, `status_type` is a String and a value is present |
| BukkitListener.BukkitPlayerStatusListener.constructor | bukkit/src/main/java/net/william278/huskchat/listener/BukkitPlayerStatusListener.java:50-58 | empty location and health maps, nothing sent |
| BukkitListener.BukkitPlayerStatusListener.OnPlayerMove | bukkit/src/main/java/net/william278/huskchat/listener/BukkitPlayerStatusListener.java:60-83 | nothing for a move within a block column; otherwise the new location is remembered and, with a previous one, fired and reported |
| BukkitListener.BukkitPlayerStatusListener.OnPlayerJoin | bukkit/src/main/java/net/william278/huskchat/listener/BukkitPlayerStatusListener.java:85-97 | location and health are remembered and a SYNC_REQUEST goes to the proxy |
| BukkitListener.BukkitPlayerStatusListener.OnPlayerQuit | bukkit/src/main/java/net/william278/huskchat/listener/BukkitPlayerStatusListener.java:99-104 | both remembered entries of the player are dropped |
| BukkitListener.BukkitPlayerStatusListener.OnEntityDamage | bukkit/src/main/java/net/william278/huskchat/listener/BukkitPlayerStatusListener.java:106-126 | nothing for a non-player; otherwise the health change is fired, reported and remembered |
| BukkitListener.BukkitPlayerStatusListener.OnPlayerDeath | bukkit/src/main/java/net/william278/huskchat/listener/BukkitPlayerStatusListener.java:128-146 | the death is fired and reported, and health is reset to the maximum |
| BukkitListener.BukkitPlayerStatusListener.OnPlayerRespawn | bukkit/src/main/java/net/william278/huskchat/listener/BukkitPlayerStatusListener.java:148-162 | the respawn is fired and reported, and the respawn location remembered |
| BukkitListener.BukkitPlayerStatusListener.OnPlayerGameModeChange | bukkit/src/main/java/net/william278/huskchat/listener/BukkitPlayerStatusListener.java:164-176 | a permanent change from the old mode name to the new is fired and reported |
| BukkitListener.BukkitPlayerStatusListener.OnPlayerToggleSneak | bukkit/src/main/java/net/william278/huskchat/listener/BukkitPlayerStatusListener.java:178-190 | a permanent change from the opposite flag to the new one is fired and reported |
| BukkitListener.BukkitPlayerStatusListener.OnPlayerToggleFlight | bukkit/src/main/java/net/william278/huskchat/listener/BukkitPlayerStatusListener.java:192-204 | a permanent change from the opposite flag to the new one is fired and reported |
| BukkitListener.BukkitPlayerStatusListener.OnPluginMessageReceived | bukkit/src/main/java/net/william278/huskchat/listener/BukkitPlayerStatusListener.java:208-229 | another channel is ignored, an undecodable message logs a warning, and a decoded one is dispatched by type |
| BukkitListener.BukkitPlayerStatusListener.SyncAnswer | bukkit/src/main/java/net/william278/huskchat/listener/BukkitPlayerStatusListener.java:231-255 | one SYNC_RESPONSE to the proxy iff the player is online, carrying that player's identity and the snapshot `BukkitListener.Snapshot` of their readings |
| BukkitListener.BukkitPlayerStatusListener.HandleSyncRequest | bukkit/src/main/java/net/william278/huskchat/listener/BukkitPlayerStatusListener.java:231-255 | the outbox grows by the sync answer; nothing else changes |
| BukkitListener.BukkitPlayerStatusListener.HandleStatusUpdateFromProxy | bukkit/src/main/java/net/william278/huskchat/listener/BukkitPlayerStatusListener.java:257-281 | applied iff there is a target, and then into a fresh adapter only |
| BackendToProxy.LocationReportChangesNoProxyState | velocity/src/main/java/net/william278/huskchat/api/VelocityHuskChatExtendedAPI.java:215-222 | once decoded by the proxy, a location report changes no proxy cache entry and fires no proxy event |
| BackendToProxy.DeathReportReachesProxies | bukkit/src/main/java/net/william278/huskchat/listener/BukkitPlayerStatusListener.java:313-325 | once decoded by the proxy, either proxy reports the backend's death text or "Player died", with a killer only when the backend named one who is online |
| BackendToProxy.RespawnReportReachesProxies | bukkit/src/main/java/net/william278/huskchat/listener/BukkitPlayerStatusListener.java:327-335 | once decoded by the proxy, BungeeCord passes the reason on; Velocity reports a NORMAL respawn at an unknown location |
| BackendToProxy.DamageReportReachesProxies | bukkit/src/main/java/net/william278/huskchat/listener/BukkitPlayerStatusListener.java:304-311 | once decoded by the proxy, the proxy caches the new and maximum health and fires a change with both readings |
| BackendToProxy.GameModeReportReadsBack | bukkit/src/main/java/net/william278/huskchat/listener/BukkitPlayerStatusListener.java:164-176 | once decoded by the proxy, after a game-mode report the proxy's `getGameMode` is the backend's new mode |
| BackendToProxy.WrittenGameModeReadsBack | bukkit/src/main/java/net/william278/huskchat/listener/BukkitPlayerStatusListener.java:164-176 | writing a Bukkit mode's name to GAMEMODE keeps the cache well typed and reads back as that mode |
| BackendToProxy.ToggleReportReadsBack | bukkit/src/main/java/net/william278/huskchat/listener/BukkitPlayerStatusListener.java:178-204 | once decoded by the proxy, after a sneak or flight report the proxy's flag is the backend's new state |
| BackendToProxy.StatusReportArrivesAsSent | bukkit/src/main/java/net/william278/huskchat/listener/BukkitPlayerStatusListener.java:164-204 | a status report reaches the proxy unchanged by decoding iff its value is a String, Boolean, Double or JSON object, as every value the listener reports is |
| BackendToProxy.AsWrittenSnapshotMissesLiveTypes | bukkit/src/main/java/net/william278/huskchat/listener/BukkitPlayerStatusListener.java:240-248 | a sync with the snapshot as written, once decoded, leaves GAMEMODE, FOOD and EXP_LEVEL unchanged and puts one of the three readings in CUSTOM, the two levels as Doubles |
| BackendToProxy.AsWrittenSyncReportsSurvivalForCreative | bukkit/src/main/java/net/william278/huskchat/listener/BukkitPlayerStatusListener.java:240-248 | a creative player with no cached mode still reads as SURVIVAL after that decoded sync |
| BackendToProxy.SnapshotSyncsHealth | bukkit/src/main/java/net/william278/huskchat/listener/BukkitPlayerStatusListener.java:240-248 | the corrected snapshot's health readings, decoded, reach HEALTH and MAX_HEALTH |
| BackendToProxy.SnapshotSyncsLevels | bukkit/src/main/java/net/william278/huskchat/listener/BukkitPlayerStatusListener.java:240-248 | even under the right keys, the food and level readings arrive as Doubles, which FOOD and EXP_LEVEL refuse, so both keep their entries |
| BackendToProxy.SnapshotSyncsStates | bukkit/src/main/java/net/william278/huskchat/listener/BukkitPlayerStatusListener.java:240-248 | the corrected snapshot's game mode, flags and world, decoded, reach their types |
| BackendToProxy.SnapshotSyncTouchesNothingElse | bukkit/src/main/java/net/william278/huskchat/listener/BukkitPlayerStatusListener.java:240-248 | after a decoded corrected sync, CUSTOM and every type the snapshot does not carry keep their entries |
| BackendToProxy.SyncedGameModeReadsBack | bukkit/src/main/java/net/william278/huskchat/listener/BukkitPlayerStatusListener.java:240-248 | after a decoded corrected sync the proxy's `getGameMode` is the backend's live mode |

## Findings

| source | as written | input that shows it | evidently intended | confidence | as-written member | corrected member |
|---|---|---|---|---|---|---|
| bukkit/src/main/java/net/william278/huskchat/listener/BukkitPlayerStatusListener.java:240-248 | the sync snapshot keys food, experience and game mode as "food_level", "experience_level" and "game_mode", which are no status type's key, so the proxy's `fromKey` routes all three to CUSTOM | a player in CREATIVE whose proxy cache has no GAMEMODE entry: after the sync the proxy's `getGameMode` is still SURVIVAL, and CUSTOM holds one of the three readings | the keys of the status types themselves ("food", "exp_level", "gamemode"), so the game mode lands on GAMEMODE; FOOD and EXP_LEVEL would in addition need the proxy to accept the Double that JSON decoding makes of an Integer (`BackendToProxy.SnapshotSyncsLevels`) | high, not executed | BackendToProxy.AsWrittenSyncReportsSurvivalForCreative | BackendToProxy.SyncedGameModeReadsBack |

The listener's `HandleSyncRequest` sends the corrected `BukkitListener.Snapshot`;
`BukkitListener.SnapshotAsWritten` keeps the source's keys for the as-written half.

## Left out

- Square roots: distances are kept as sums of squares, and a radius test compares squares.
- Clocks: `System.currentTimeMillis()` and message timestamps are a `now` parameter.
- DecodedValue: an object of a class other than the boxed ones is modelled as arriving as a JSON object (`LinkedTreeMap`) whatever its class; Gson gives an enum or a UUID back as its String and a collection as an `ArrayList`, which the model does not distinguish, since only the fact that such an object never arrives as itself is used.
- Serialisation: of Gson's encoding and decoding, only the effect on the data values is modelled (`Messages.Decoded`: an Integer or Long read into an `Object` slot comes back as a Double, Gson's default number policy); the JSON text itself is left out, and a received message arrives already decoded, or as a decoding failure. Decoding of messages the proxy sends to a game server is not stated separately.
- Proxy user identity: the proxy plugin classes behind `plugin.getOnlinePlayers()` (velocity/src/main/java/net/william278/huskchat/api/VelocityHuskChatExtendedAPI.java:153-155) are not part of this model. The proxy handlers and the end-to-end lemmas assume that the Velocity and BungeeCord users it returns are the same objects from one call to the next, so that a cache written by `HandleStatusUpdate`, `HandleHealthChange` or `SyncFromBackend` is the one read later. If the proxies adapted afresh on every call, as `VelocityUser.adapt` and `BungeeUser.adapt` would and as the Bukkit side does, those writes would be lost at the next lookup.
- Concurrency: `CompletableFuture`, `ConcurrentHashMap` and the scheduler threads; expiry tasks are an explicit later `RunExpiry` step.
- Velocity locations: `VelocityPlayerLocation` is not part of this model, so a Velocity user has no `getLocation`, and the Bukkit API's location channel and region tests take users that have a location.
- Channel registry and membership: the user cache and channel configuration are an abstract set of channels and a map from player to channel.
- Private-message delivery and the rest of the command logic: whether a private message was delivered is a parameter of `ExecuteChatCommand`.
- Event listeners: on BungeeCord and Bukkit, what listeners do to a fired event is a parameter; Bukkit listener calls record only their order and the warnings of those that throw.
- Plugin-message channel registration, the test plugin, the BungeeCord and Velocity status listeners and `BukkitEventProvider` are not part of this model.
- IP addresses, locales and client brands read through reflection are not modelled.
- Log texts other than the warnings of failed listener calls are not modelled.
- HEALTH, MAX_HEALTH, WORLD, SERVER, PING, CLIENT_BRAND, FIRST_JOIN_TIME, LAST_LOGIN_TIME and TOTAL_ONLINE_TIME: the enum does not declare them. Their names and classes are read off their use sites; their keys are chosen: "health", "max_health" and "world" are the keys the listener's sync snapshot uses (bukkit/src/main/java/net/william278/huskchat/listener/BukkitPlayerStatusListener.java:240-241 and 247), the other six are the lower-cased names. `BackendToProxy.MatchingKeyIsKnown` and `BackendToProxy.AsWrittenCustomSource` depend on that choice: with other keys for HEALTH, MAX_HEALTH or WORLD, more snapshot entries would go to CUSTOM.
- `shouldRestrictChatOnLowHealth` and `shouldRestrictChatInCombat` return false on every platform; `CheckChatConditions` takes the two policies as parameters.
- Java integer widths: Integer and Long values are unbounded, except the `(int)` cast of a double, which saturates as Java's does.
- String case: lower-casing is ASCII only.
- BukkitListener.BukkitPlayerStatusListener.HandleSyncRequest: sends the corrected snapshot, not the one the source builds (see Findings).
- BukkitListener.BukkitPlayerStatusListener.SyncAnswer: carries the corrected snapshot `BukkitListener.Snapshot`, not `BukkitListener.SnapshotAsWritten` (see Findings).
- Locations.BungeeEquals: Java doubles are reals here, so `Double.compare`'s treatment of NaN and of -0.0 against 0.0 is not modelled.
- Locations.JavaIntCast: a real has no NaN or infinities, so the cast's NaN-to-zero case is not modelled.
- BukkitListener.HealthAfterDamage: computed exactly on reals; double rounding of the subtraction is not modelled.
- BukkitApi.WithinRadius: computed exactly on reals; double rounding and NaN coordinates are not modelled.
- BukkitListener.BukkitPlayerStatusListener.OnPlayerDeath: takes the killer as the event gives it; Bukkit's lookup of the killer is not modelled.
