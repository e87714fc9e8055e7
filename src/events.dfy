/**
 * The events the plugin fires, as a log. Each `fire*Event` call the core makes appends one
 * record holding the arguments it was given; what listeners then do with the event (cancel it,
 * rewrite a field) comes back to the caller as a separate outcome.
 */
module Events {
  import opened Wrappers
  import opened Values
  import opened StatusTypes
  import opened Commands
  import opened Locations

  /** `ChannelSwitchEvent.SwitchReason`. */
  datatype SwitchReason = PlayerCommand | ServerSwitchReason | PlayerJoin | AdminForce | ApiCall | OtherSwitch

  /** `PlayerJoinChannelEvent.JoinReason`. */
  datatype JoinReason = FirstLogin | Reconnect | ServerSwitchJoin | ManualSwitch | AdminActionJoin | ApiCallJoin

  /** `PlayerLeaveChannelEvent.LeaveReason`. */
  datatype LeaveReason = Disconnect | ChannelSwitchLeave | ServerSwitchLeave | AdminActionLeave | ApiCallLeave | PermissionRevoked

  /** `PlayerHealthChangeEvent.HealthChangeReason`. */
  datatype HealthChangeReason =
    | EntityAttack | PlayerAttack | Environmental | Starvation | Poison | Magic
    | Healing | Regeneration | Food | Potion | PluginHealth | OtherHealth

  /** `PlayerDeathEvent.DeathCause`. */
  datatype DeathCause =
    | PlayerKill | EntityKill | FallDamage | FireDamage | LavaDamage | Drowning | Suffocation
    | StarvationDeath | PoisonDeath | MagicDamage | Explosion | VoidDamage | Lightning | Suicide
    | PluginDeath | OtherDeath

  /** `MessageFilterEvent.FilterType`. */
  datatype FilterType = Profanity | Spam | Advertisement | CustomFilter | Replacer | Format

  /** `PlayerRespawnEvent.RespawnReason`. */
  datatype RespawnReason = Normal | Bed | RespawnAnchor | PluginRespawn | OtherRespawn

  /**
   * One fired event. Players are identified by UUID. The `...Named` and `...Brief` records are
   * the platform-specific `fire*` overloads that take a reason string instead of an enum.
   */
  datatype Event =
    | ChannelSwitchFired(player: Uuid, previousChannelId: Option<string>, newChannelId: string, switchReason: SwitchReason)
    | LeaveChannelFired(player: Uuid, channelId: string, leaveReason: LeaveReason)
    | JoinChannelFired(player: Uuid, channelId: string, joinReason: JoinReason)
    | ChatCommandFired(player: Uuid, command: string, args: seq<string>, commandType: CommandType, phase: ExecutionPhase)
      /** `setSuccessful` and `setFailureReason` called on the event a fire returned. */
    | ChatCommandMarked(player: Uuid, successful: bool, failureReason: Option<string>)
    | StatusChangeFired(player: Uuid, statusType: StatusType, previousValue: Option<Value>,
                        newValue: Option<Value>, reason: string, duration: int)
    | HealthChangeFired(player: Uuid, previousHealth: real, newHealth: real, maxHealth: real,
                        healthReason: HealthChangeReason, damager: Option<string>)
    | HealthChangeNamed(player: Uuid, previousHealth: real, newHealth: real, maxHealth: real,
                        reasonName: string, damager: Option<string>)
    | LocationChangeFired(player: Uuid, previousLocation: Option<PlayerLocation>, newLocation: PlayerLocation,
                          movementReason: MovementReason)
    | DeathFired(player: Uuid, deathMessage: string, deathCause: DeathCause, killer: Option<Uuid>, deathLocation: PlayerLocation)
    | DeathBrief(player: Uuid, killer: Option<Uuid>, message: Option<string>)
    | RespawnFired(player: Uuid, respawnLocation: PlayerLocation, respawnReason: RespawnReason)
    | RespawnBrief(player: Uuid, reasonText: string)

  /** How the listeners left a channel-switch event: `isCancelled()` and `getNewChannelId()`. */
  datatype SwitchOutcome = SwitchOutcome(cancelled: bool, newChannelId: string)

  /** How the listeners left a PRE command event: `isCancelled()` and `getArgs()`. */
  datatype CommandOutcome = CommandOutcome(cancelled: bool, args: seq<string>)
}
