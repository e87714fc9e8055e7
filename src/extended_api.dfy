/**
 * `HuskChatExtendedAPI`, the platform-independent part: the event-gated channel switch and
 * command execution, the membership queries, the command permission table, the status-update
 * gate and the ordered chat-condition checks.
 *
 * The membership store (`getUserCache`) and the channel registry (`getChannels`) are not part
 * of this model; they are a map from player UUID to channel id and a set of channel ids.
 */
module ExtendedApi {
  import Search
  import opened Wrappers
  import opened Values
  import opened StatusTypes
  import opened Commands
  import opened Events
  import opened OnlineUsers
  import PlayerInfo
  import Console
  import VelocityUsers
  import BukkitUsers

  /** `getPlayerChannel(uuid)`: the player's current channel, if any. */
  function ChannelOf(membership: map<Uuid, string>, player: Uuid): Option<string>
  {
    if player in membership then Some(membership[player]) else None
  }

  /** `isPlayerInChannel`: the recorded channel is present and equal to `channelId`. */
  predicate InChannel(membership: map<Uuid, string>, player: Uuid, channelId: string)
  {
    ChannelOf(membership, player) == Some(channelId)
  }

  // ---------- channel switch ----------

  /** Whether `switchPlayerChannel` reports success: the channel is registered and the event was not cancelled. */
  predicate SwitchSucceeds(channels: set<string>, channelId: string, outcome: SwitchOutcome)
  {
    channelId in channels && !outcome.cancelled
  }

  /**
   * The events `switchPlayerChannel` fires: none for an unregistered channel; otherwise the
   * switch event, and when it was not cancelled a leave event for the previous channel (if there
   * was one) and a join event for the id the listeners left in the event.
   */
  function SwitchEvents(channels: set<string>, player: Uuid, previous: Option<string>, channelId: string,
                        reason: SwitchReason, outcome: SwitchOutcome): seq<Event>
  {
    if channelId !in channels then []
    else
      [ChannelSwitchFired(player, previous, channelId, reason)]
      + (if outcome.cancelled then []
         else (if previous.Some? then [LeaveChannelFired(player, previous.value, ChannelSwitchLeave)] else [])
              + [JoinChannelFired(player, outcome.newChannelId, ManualSwitch)])
  }

  /** The membership after `switchPlayerChannel`: the listeners' channel id recorded on success, otherwise unchanged. */
  function SwitchedMembership(channels: set<string>, membership: map<Uuid, string>, player: Uuid,
                              channelId: string, outcome: SwitchOutcome): map<Uuid, string>
  {
    if SwitchSucceeds(channels, channelId, outcome) then membership[player := outcome.newChannelId] else membership
  }

  /** An unregistered target: false, no event, no change. */
  lemma UnregisteredChannelChangesNothing(channels: set<string>, membership: map<Uuid, string>, player: Uuid,
                                          channelId: string, reason: SwitchReason, outcome: SwitchOutcome)
    requires channelId !in channels
    ensures !SwitchSucceeds(channels, channelId, outcome)
    ensures SwitchEvents(channels, player, ChannelOf(membership, player), channelId, reason, outcome) == []
    ensures SwitchedMembership(channels, membership, player, channelId, outcome) == membership
  {
  }

  /** A cancelled switch event: false, only the switch event itself, no change. */
  lemma CancelledSwitchChangesNothing(channels: set<string>, membership: map<Uuid, string>, player: Uuid,
                                      channelId: string, reason: SwitchReason, outcome: SwitchOutcome)
    requires channelId in channels && outcome.cancelled
    ensures !SwitchSucceeds(channels, channelId, outcome)
    ensures SwitchEvents(channels, player, ChannelOf(membership, player), channelId, reason, outcome)
            == [ChannelSwitchFired(player, ChannelOf(membership, player), channelId, reason)]
    ensures SwitchedMembership(channels, membership, player, channelId, outcome) == membership
  {
  }

  /** A leave event is fired exactly when the switch succeeds and the player had a channel. */
  lemma {:induction false} LeaveFiredIffPreviousChannel(channels: set<string>, membership: map<Uuid, string>, player: Uuid,
                                                        channelId: string, reason: SwitchReason, outcome: SwitchOutcome)
    ensures (exists e :: e in SwitchEvents(channels, player, ChannelOf(membership, player), channelId, reason, outcome) && e.LeaveChannelFired?)
            <==> SwitchSucceeds(channels, channelId, outcome) && player in membership
  {
    var previous := ChannelOf(membership, player);
    var evs := SwitchEvents(channels, player, previous, channelId, reason, outcome);
    if SwitchSucceeds(channels, channelId, outcome) && player in membership {
      assert evs[1] == LeaveChannelFired(player, membership[player], ChannelSwitchLeave);
    }
    if !SwitchSucceeds(channels, channelId, outcome) || player !in membership {
      forall e | e in evs ensures !e.LeaveChannelFired? {
      }
    }
  }

  /**
   * A successful switch, even to the channel the player is already in, records the listeners'
   * (possibly rewritten) channel id, which `isPlayerInChannel` then reports, and ends with the
   * join event for that same id.
   */
  lemma {:induction false} SuccessfulSwitchJoinsRewrittenChannel(channels: set<string>, membership: map<Uuid, string>, player: Uuid,
                                                                  channelId: string, reason: SwitchReason, outcome: SwitchOutcome)
    requires SwitchSucceeds(channels, channelId, outcome)
    ensures InChannel(SwitchedMembership(channels, membership, player, channelId, outcome), player, outcome.newChannelId)
    ensures forall p :: p != player ==> ChannelOf(SwitchedMembership(channels, membership, player, channelId, outcome), p) == ChannelOf(membership, p)
    ensures var evs := SwitchEvents(channels, player, ChannelOf(membership, player), channelId, reason, outcome);
            |evs| >= 2 && evs[0] == ChannelSwitchFired(player, ChannelOf(membership, player), channelId, reason)
            && evs[|evs| - 1] == JoinChannelFired(player, outcome.newChannelId, ManualSwitch)
  {
  }

  // ---------- command execution ----------

  /**
   * `executeCommandLogic`, given how the nested switch and the private-message dispatch turn
   * out: a channel command needs an argument and a successful switch, a private message needs
   * a recipient and a message and a delivered dispatch, and every other command succeeds.
   */
  predicate CommandSucceeds(channels: set<string>, t: CommandType, args: seq<string>,
                            switchOutcome: SwitchOutcome, delivered: bool)
  {
    match t
    case ChannelSwitch => |args| > 0 && SwitchSucceeds(channels, args[0], switchOutcome)
    case PrivateMessage => |args| >= 2 && delivered
    case _ => true
  }

  /** The channel a command switches to, when it is a channel command with an argument. */
  function CommandSwitchTarget(t: CommandType, args: seq<string>): (r: Option<string>)
    ensures r.Some? <==> t == ChannelSwitch && |args| > 0
    ensures r.Some? ==> r.value == args[0]
  {
    if t == ChannelSwitch && |args| > 0 then Some(args[0]) else None
  }

  const CommandFailure: string := "Command execution failed"

  /** The failure reason the POST event is given: only a failed command gets one. */
  function FailureReason(success: bool): (r: Option<string>)
    ensures r.None? <==> success
  {
    if success then None else Some(CommandFailure)
  }

  /** A channel command without an argument, or a private message without a recipient and text, fails. */
  lemma MissingArgumentsFail(channels: set<string>, args: seq<string>, switchOutcome: SwitchOutcome, delivered: bool)
    ensures |args| == 0 ==> !CommandSucceeds(channels, ChannelSwitch, args, switchOutcome, delivered)
    ensures |args| < 2 ==> !CommandSucceeds(channels, PrivateMessage, args, switchOutcome, delivered)
  {
  }

  // ---------- permissions ----------

  /** The node and default `validateCommandPermission` checks for a command type, if any. */
  function CommandPermission(t: CommandType): (r: Option<(string, bool)>)
    ensures t in {ChannelSwitch, PrivateMessage, Reply, OptOutMessage} <==> r.Some? && r.value.1
    ensures t in {Broadcast, SocialSpy, LocalSpy} <==> r.Some? && !r.value.1
  {
    match t
    case ChannelSwitch => Some(("huskchat.command.channel", true))
    case PrivateMessage => Some(("huskchat.command.msg", true))
    case Reply => Some(("huskchat.command.reply", true))
    case Broadcast => Some(("huskchat.command.broadcast", false))
    case SocialSpy => Some(("huskchat.command.socialspy", false))
    case LocalSpy => Some(("huskchat.command.localspy", false))
    case OptOutMessage => Some(("huskchat.command.optout", true))
    case _ => None
  }

  /** `validateCommandPermission`: the command type's node with its default; unlisted types are allowed. */
  function ValidateCommandPermission(player: OnlineUser, command: string): (r: bool)
    ensures CommandPermission(FromCommand(command)).None? ==> r
    ensures CommandPermission(FromCommand(command)).Some? ==>
              r == HasPermission(player, Some(CommandPermission(FromCommand(command)).value.0), CommandPermission(FromCommand(command)).value.1)
  {
    match CommandPermission(FromCommand(command))
    case None => true
    case Some((node, allowByDefault)) => HasPermission(player, Some(node), allowByDefault)
  }

  /** The console may run every command. */
  lemma ConsoleMayRunEveryCommand(c: Console.ConsoleUser, command: string)
    ensures ValidateCommandPermission(OnConsole(c), command)
  {
    var p := CommandPermission(FromCommand(command));
    if p.Some? {
      Console.ConsoleNeverRestricted(c, Some(p.value.0), p.value.1);
    }
  }

  /**
   * On a proxy, a staff command (broadcast, social spy, local spy) is refused to a player with
   * no explicit value for its node, while every other listed command is allowed.
   */
  lemma StaffCommandsNeedExplicitGrant(v: VelocityUsers.VelocityUser, command: string)
    requires CommandPermission(FromCommand(command)).Some?
    requires CommandPermission(FromCommand(command)).value.0 !in v.player.permissionValues
    ensures ValidateCommandPermission(OnVelocity(v), command)
            <==> FromCommand(command) !in {Broadcast, SocialSpy, LocalSpy}
  {
  }

  /** On a game server, operators may run the staff commands unless the node is set on them. */
  lemma OperatorsMayRunStaffCommands(k: BukkitUsers.BukkitUser, command: string)
    requires k.player.op
    requires CommandPermission(FromCommand(command)).Some?
    requires CommandPermission(FromCommand(command)).value.0 !in k.player.permissionsSet
    ensures ValidateCommandPermission(OnBukkit(k), command)
  {
  }

  // ---------- chat conditions ----------

  /** `ChatConditionResult`: allowed, or refused with a reason. */
  datatype ChatConditionResult = ChatConditionResult(allowed: bool, reason: Option<string>)

  function SendNode(channelId: string): string
  {
    "huskchat.channel." + channelId + ".send"
  }

  const NoPermission: string := "No permission to send messages in this channel"
  const Muted: string := "Player is muted"
  const CriticalHealth: string := "Cannot chat while in critical health condition"
  const InCombat: string := "Cannot chat while in combat"

  /**
   * `checkChatConditions`, with the platform's two restriction policies for the channel given
   * as `restrictLowHealth` and `restrictCombat`: the first failing check in the order
   * permission, mute, critical health, combat decides the reason; with none failing the chat
   * is allowed and carries no reason.
   */
  function CheckChatConditions(player: OnlineUser, channelId: string, restrictLowHealth: bool, restrictCombat: bool): (r: ChatConditionResult)
    reads Footprint(player)
    requires Valid(player)
    ensures r.allowed <==> (HasPermission(player, Some(SendNode(channelId)), true) && !IsMuted(player)
                            && !(IsCriticalHealth(player) && restrictLowHealth) && !(IsInCombat(player) && restrictCombat))
    ensures r.allowed <==> r.reason.None?
    ensures !HasPermission(player, Some(SendNode(channelId)), true) ==> r.reason == Some(NoPermission)
    ensures HasPermission(player, Some(SendNode(channelId)), true) && IsMuted(player) ==> r.reason == Some(Muted)
    ensures r.reason == Some(InCombat) ==> !IsMuted(player) && !(IsCriticalHealth(player) && restrictLowHealth)
    ensures (HasPermission(player, Some(SendNode(channelId)), true) && !IsMuted(player)
             && IsCriticalHealth(player) && restrictLowHealth) ==> r.reason == Some(CriticalHealth)
    ensures (HasPermission(player, Some(SendNode(channelId)), true) && !IsMuted(player)
             && !(IsCriticalHealth(player) && restrictLowHealth) && IsInCombat(player) && restrictCombat)
            ==> r.reason == Some(InCombat)
  {
    if !HasPermission(player, Some(SendNode(channelId)), true) then ChatConditionResult(false, Some(NoPermission))
    else if IsMuted(player) then ChatConditionResult(false, Some(Muted))
    else if IsCriticalHealth(player) && restrictLowHealth then ChatConditionResult(false, Some(CriticalHealth))
    else if IsInCombat(player) && restrictCombat then ChatConditionResult(false, Some(InCombat))
    else ChatConditionResult(true, None)
  }

  /**
   * Every platform's policies answer "do not restrict", so in practice only the permission and
   * the mute decide, and neither health nor combat ever refuses.
   */
  lemma PlatformPoliciesCheckOnlyPermissionAndMute(player: OnlineUser, channelId: string)
    requires Valid(player)
    ensures CheckChatConditions(player, channelId, false, false).allowed
            <==> HasPermission(player, Some(SendNode(channelId)), true) && !IsMuted(player)
    ensures CheckChatConditions(player, channelId, false, false).reason !in {Some(CriticalHealth), Some(InCombat)}
  {
  }

  /** The console may chat in every channel. */
  lemma ConsoleMayAlwaysChat(c: Console.ConsoleUser, channelId: string, restrictLowHealth: bool, restrictCombat: bool)
    ensures CheckChatConditions(OnConsole(c), channelId, restrictLowHealth, restrictCombat).allowed
  {
  }

  // ---------- membership queries ----------

  /** The online users whose recorded channel is `channelId`, in the online list's order. */
  function PlayersIn(membership: map<Uuid, string>, online: seq<OnlineUser>, channelId: string): (r: seq<OnlineUser>)
    ensures forall i :: 0 <= i < |r| ==> r[i] in online && InChannel(membership, UuidOf(r[i]), channelId)
    ensures forall i :: 0 <= i < |online| && InChannel(membership, UuidOf(online[i]), channelId) ==> online[i] in r
    ensures |r| <= |online|
    ensures r == Search.Keep(online, u => InChannel(membership, UuidOf(u), channelId))
  {
    if online == [] then []
    else
      var rest := PlayersIn(membership, online[1..], channelId);
      if InChannel(membership, UuidOf(online[0]), channelId) then [online[0]] + rest else rest
  }

  /** The extended API's own state: the channel registry, the membership store and the fired events. */
  class HuskChatExtendedApi {
    const channels: set<string>
    var membership: map<Uuid, string>
    var events: seq<Event>

    constructor (channels: set<string>, membership: map<Uuid, string>)
      ensures this.channels == channels && this.membership == membership && events == []
    {
      this.channels := channels;
      this.membership := membership;
      events := [];
    }

    /** One `fire*Event` call whose outcome the caller ignores. */
    method Fire(e: Event)
      modifies this
      ensures events == old(events) + [e]
      ensures membership == old(membership)
    {
      events := events + [e];
    }

    /** `isPlayerInChannel`. */
    predicate IsPlayerInChannel(player: OnlineUser, channelId: string)
      reads this
    {
      InChannel(membership, UuidOf(player), channelId)
    }

    /** `getPlayersInChannel`: exactly the online users for which `isPlayerInChannel` holds. */
    function GetPlayersInChannel(online: seq<OnlineUser>, channelId: string): (r: seq<OnlineUser>)
      reads this
      ensures forall i :: 0 <= i < |r| ==> r[i] in online && IsPlayerInChannel(r[i], channelId)
      ensures forall i :: 0 <= i < |online| && IsPlayerInChannel(online[i], channelId) ==> online[i] in r
      ensures var m := membership; r == Search.Keep(online, u => InChannel(m, UuidOf(u), channelId))
    {
      PlayersIn(membership, online, channelId)
    }

    /**
     * `switchPlayerChannel`, with the listeners' verdict on the switch event given as
     * `outcome`: the result, the events fired and the membership are those of the
     * specification functions above.
     */
    method SwitchPlayerChannel(player: OnlineUser, channelId: string, reason: SwitchReason, outcome: SwitchOutcome)
      returns (switched: bool)
      modifies this
      ensures switched == SwitchSucceeds(channels, channelId, outcome)
      ensures events == old(events) + SwitchEvents(channels, UuidOf(player), ChannelOf(old(membership), UuidOf(player)), channelId, reason, outcome)
      ensures membership == SwitchedMembership(channels, old(membership), UuidOf(player), channelId, outcome)
    {
      if channelId !in channels {
        return false;
      }
      var uuid := UuidOf(player);
      var previous := ChannelOf(membership, uuid);
      events := events + [ChannelSwitchFired(uuid, previous, channelId, reason)];
      if outcome.cancelled {
        return false;
      }
      if previous.Some? {
        events := events + [LeaveChannelFired(uuid, previous.value, ChannelSwitchLeave)];
      }
      membership := membership[uuid := outcome.newChannelId];
      events := events + [JoinChannelFired(uuid, outcome.newChannelId, ManualSwitch)];
      switched := true;
    }

    /**
     * `executeChatCommand`. `pre` is how the listeners left the PRE event; `switchOutcome` is
     * the verdict on the nested switch a channel command makes, and `delivered` whether a
     * private message's dispatch completed. A cancelled PRE event ends it; otherwise the command
     * runs on the PRE event's arguments, and the POST event gets the original command and
     * arguments, then the result and, on failure, the failure reason.
     */
    method ExecuteChatCommand(player: OnlineUser, command: string, args: seq<string>,
                              pre: CommandOutcome, switchOutcome: SwitchOutcome, delivered: bool)
      returns (success: bool)
      modifies this
      ensures var uuid := UuidOf(player);
              var t := FromCommand(command);
              && (pre.cancelled ==> !success && membership == old(membership)
                                    && events == old(events) + [ChatCommandFired(uuid, command, args, t, Pre)])
              && (!pre.cancelled ==>
                    && success == CommandSucceeds(channels, t, pre.args, switchOutcome, delivered)
                    && events == old(events) + [ChatCommandFired(uuid, command, args, t, Pre)]
                                 + (match CommandSwitchTarget(t, pre.args)
                                    case Some(c) => SwitchEvents(channels, uuid, ChannelOf(old(membership), uuid), c, ApiCall, switchOutcome)
                                    case None => [])
                                 + [ChatCommandFired(uuid, command, args, t, Post), ChatCommandMarked(uuid, success, FailureReason(success))]
                    && membership == (match CommandSwitchTarget(t, pre.args)
                                      case Some(c) => SwitchedMembership(channels, old(membership), uuid, c, switchOutcome)
                                      case None => old(membership)))
    {
      var uuid := UuidOf(player);
      var t := FromCommand(command);
      events := events + [ChatCommandFired(uuid, command, args, t, Pre)];
      if pre.cancelled {
        return false;
      }
      match t {
        case ChannelSwitch =>
          if |pre.args| > 0 {
            success := SwitchPlayerChannel(player, pre.args[0], ApiCall, switchOutcome);
          } else {
            success := false;
          }
        case PrivateMessage =>
          success := |pre.args| >= 2 && delivered;
        case _ =>
          success := true;
      }
      events := events + [ChatCommandFired(uuid, command, args, t, Post), ChatCommandMarked(uuid, success, FailureReason(success))];
    }

    /**
     * The common half of `updatePlayerStatus`: the previous value is read before the change
     * event fires; the caller goes on to the platform's update only if the event was not
     * cancelled.
     */
    method StatusChangeGate(player: OnlineUser, t: StatusType, newValue: Value, reason: string, duration: int, cancelled: bool)
      returns (proceed: bool)
      modifies this
      ensures proceed == !cancelled
      ensures events == old(events) + [StatusChangeFired(UuidOf(player), t, old(GetStatus(player, t)), Some(newValue), reason, duration)]
      ensures membership == old(membership)
    {
      var previous := GetStatus(player, t);
      events := events + [StatusChangeFired(UuidOf(player), t, previous, Some(newValue), reason, duration)];
      proceed := !cancelled;
    }
  }
}
