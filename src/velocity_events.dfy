/**
 * `VelocityEventProvider`'s stub events. On a Velocity proxy every non-chat `fire*Event`
 * returns an already-completed event that echoes its arguments, is never cancelled, and whose
 * setters do nothing; the modelled stubs are values whose setters return them unchanged.
 */
module VelocityEvents {
  import opened Wrappers
  import opened Values
  import opened StatusTypes
  import opened Commands
  import opened Events
  import opened Locations
  import ExtendedApi

  /** The channel-switch stub. */
  datatype SwitchStub = SwitchStub(player: Uuid, previousChannelId: Option<string>, requestedChannelId: string, reason: SwitchReason)
  {
    function NewChannelId(): string { requestedChannelId }
    predicate IsCancelled() { false }
    function SetNewChannelId(channelId: string): SwitchStub { this }
    function SetCancelled(cancelled: bool): SwitchStub { this }

    /** What the switch coordinator reads back from the stub. */
    function Outcome(): (o: SwitchOutcome)
      ensures o.cancelled == IsCancelled() && o.newChannelId == NewChannelId()
    {
      SwitchOutcome(IsCancelled(), NewChannelId())
    }
  }

  /** The command stub: always successful, no failure reason, arguments as given. */
  datatype CommandStub = CommandStub(player: Uuid, command: string, args: seq<string>, commandType: CommandType, phase: ExecutionPhase)
  {
    function Args(): seq<string> { args }
    predicate IsSuccessful() { true }
    function FailureReason(): Option<string> { None }
    predicate IsCancelled() { false }
    function SetArgs(newArgs: seq<string>): CommandStub { this }
    function SetSuccessful(successful: bool): CommandStub { this }
    function SetFailureReason(reason: Option<string>): CommandStub { this }
    function SetCancelled(cancelled: bool): CommandStub { this }

    function Outcome(): (o: CommandOutcome)
      ensures o.cancelled == IsCancelled() && o.args == Args()
    {
      CommandOutcome(IsCancelled(), Args())
    }
  }

  /** The message-filter stub: never blocked, no reason, the filtered message fixed. */
  datatype FilterStub = FilterStub(sender: Uuid, originalMessage: string, filteredMessage: string, filterType: FilterType, filterName: string)
  {
    function FilteredMessage(): string { filteredMessage }
    predicate IsBlocked() { false }
    function FilterReason(): Option<string> { None }
    predicate IsCancelled() { false }
    function SetFilteredMessage(message: string): FilterStub { this }
    function SetBlocked(blocked: bool): FilterStub { this }
    function SetFilterReason(reason: Option<string>): FilterStub { this }
  }

  /** The death stub: the message is always to be sent, to no particular channel. */
  datatype DeathStub = DeathStub(player: Uuid, deathMessage: string, deathCause: DeathCause, killer: Option<Uuid>, deathLocation: PlayerLocation)
  {
    function DeathMessage(): string { deathMessage }
    predicate ShouldSendDeathMessage() { true }
    function DeathMessageChannel(): Option<string> { None }
    function SetDeathMessage(message: string): DeathStub { this }
    function SetSendDeathMessage(send: bool): DeathStub { this }
    function SetDeathMessageChannel(channelId: Option<string>): DeathStub { this }
  }

  /** The respawn stub: no respawn message is ever sent. */
  datatype RespawnStub = RespawnStub(player: Uuid, respawnLocation: PlayerLocation, reason: RespawnReason)
  {
    function RespawnLocation(): PlayerLocation { respawnLocation }
    predicate ShouldSendRespawnMessage() { false }
    function RespawnMessageChannel(): Option<string> { None }
    function SetRespawnLocation(location: PlayerLocation): RespawnStub { this }
    function SetSendRespawnMessage(send: bool): RespawnStub { this }
    function SetRespawnMessageChannel(channelId: Option<string>): RespawnStub { this }
  }

  /** The status-change stub: never cancelled, so the status-update gate always lets the update through. */
  datatype StatusStub = StatusStub(player: Uuid, statusType: StatusType, previousValue: Option<Value>, newValue: Value, reason: string, duration: int)
  {
    predicate IsCancelled() { false }
    function SetCancelled(cancelled: bool): StatusStub { this }
  }

  /** No listener can cancel a switch or redirect it: whatever it sets, the stub answers with the requested id. */
  lemma SwitchSettersHaveNoEffect(e: SwitchStub, channelId: string, cancelled: bool)
    ensures e.SetCancelled(cancelled).SetNewChannelId(channelId).Outcome() == SwitchOutcome(false, e.requestedChannelId)
  {
  }

  /** Marking a command failed has no effect: it still reads as successful with no reason. */
  lemma CommandMarkingHasNoEffect(e: CommandStub, successful: bool, reason: Option<string>, newArgs: seq<string>)
    ensures var m := e.SetSuccessful(successful).SetFailureReason(reason).SetArgs(newArgs);
            m.IsSuccessful() && m.FailureReason().None? && m.Args() == e.args && !m.IsCancelled()
  {
  }

  /** A filter listener can neither block a message nor change its filtered text. */
  lemma FilterCannotBlockOrRewrite(e: FilterStub, message: string, reason: Option<string>)
    ensures var m := e.SetBlocked(true).SetFilteredMessage(message).SetFilterReason(reason);
            !m.IsBlocked() && m.FilteredMessage() == e.filteredMessage && m.FilterReason().None?
  {
  }

  /** Death messages are always sent, to no channel; respawn messages never are. */
  lemma DeathAndRespawnMessagePolicy(d: DeathStub, r: RespawnStub, send: bool, channelId: Option<string>)
    ensures d.SetSendDeathMessage(send).SetDeathMessageChannel(channelId).ShouldSendDeathMessage()
    ensures d.SetDeathMessageChannel(channelId).DeathMessageChannel().None?
    ensures !r.SetSendRespawnMessage(send).ShouldSendRespawnMessage()
    ensures r.SetRespawnMessageChannel(channelId).RespawnMessageChannel().None?
  {
  }

  /**
   * On Velocity a channel switch succeeds exactly when the channel is registered, and then
   * records the channel that was asked for: no listener can veto or redirect it.
   */
  lemma {:induction false} VelocitySwitchCommitsRequestedChannel(channels: set<string>, membership: map<Uuid, string>,
                                                                  player: Uuid, channelId: string, reason: SwitchReason)
    ensures var o := SwitchStub(player, ExtendedApi.ChannelOf(membership, player), channelId, reason).Outcome();
            && (ExtendedApi.SwitchSucceeds(channels, channelId, o) <==> channelId in channels)
            && (channelId in channels ==> ExtendedApi.InChannel(ExtendedApi.SwitchedMembership(channels, membership, player, channelId, o), player, channelId))
  {
    var o := SwitchStub(player, ExtendedApi.ChannelOf(membership, player), channelId, reason).Outcome();
    if channelId in channels {
      ExtendedApi.SuccessfulSwitchJoinsRewrittenChannel(channels, membership, player, channelId, reason, o);
    }
  }

  /** On Velocity a command always runs on its own arguments: the PRE stub is never cancelled and never rewritten. */
  lemma VelocityCommandRunsOnOriginalArgs(player: Uuid, command: string, args: seq<string>, t: CommandType)
    ensures CommandStub(player, command, args, t, Pre).Outcome() == CommandOutcome(false, args)
  {
  }
}
