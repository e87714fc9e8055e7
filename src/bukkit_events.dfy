/**
 * The Bukkit platform's mutable event classes: records whose setters listeners call while
 * the event is dispatched, and whose getters the core reads afterwards.
 */
module BukkitEvents {
  import opened Wrappers
  import opened Commands
  import opened Events
  import opened Locations
  import opened OnlineUsers

  /** `BukkitChannelSwitchEvent`: only the target channel can be changed. */
  class BukkitChannelSwitchEvent {
    const player: OnlineUser
    /** Null on a first join. */
    const previousChannelId: Option<string>
    var newChannelId: string
    const reason: SwitchReason

    constructor (player: OnlineUser, previousChannelId: Option<string>, newChannelId: string, reason: SwitchReason)
      ensures this.player == player && this.previousChannelId == previousChannelId
      ensures this.newChannelId == newChannelId && this.reason == reason
    {
      this.player := player;
      this.previousChannelId := previousChannelId;
      this.newChannelId := newChannelId;
      this.reason := reason;
    }

    method SetNewChannelId(channelId: string)
      modifies this
      ensures newChannelId == channelId
    {
      newChannelId := channelId;
    }
  }

  /**
   * `BukkitChatCommandEvent`: the arguments are held in a private array that is copied on the
   * way in and on the way out, so no caller shares it.
   */
  class BukkitChatCommandEvent {
    const player: OnlineUser
    const command: string
    var args: array<string>
    const commandType: CommandType
    const phase: ExecutionPhase
    var failureReason: Option<string>
    var successful: bool

    constructor (player: OnlineUser, command: string, args: array<string>, commandType: CommandType, phase: ExecutionPhase)
      ensures this.player == player && this.command == command && this.commandType == commandType && this.phase == phase
      ensures fresh(this.args) && this.args[..] == args[..]
      ensures successful && failureReason.None?
    {
      var copy := CopyOf(args);
      this.player := player;
      this.command := command;
      this.commandType := commandType;
      this.phase := phase;
      successful := true;
      failureReason := None;
      this.args := copy;
    }

    /** `getArgs`: a fresh copy of the stored arguments. */
    method GetArgs() returns (r: array<string>)
      ensures fresh(r) && r[..] == args[..]
      ensures r != args
    {
      r := CopyOf(args);
    }

    /** `setArgs`: store a fresh copy of the given arguments. */
    method SetArgs(newArgs: array<string>)
      modifies this
      ensures fresh(args) && args[..] == newArgs[..]
      ensures args != newArgs
      ensures successful == old(successful) && failureReason == old(failureReason)
    {
      args := CopyOf(newArgs);
    }

    method SetSuccessful(successful: bool)
      modifies this
      ensures this.successful == successful
      ensures args == old(args) && failureReason == old(failureReason)
    {
      this.successful := successful;
    }

    method SetFailureReason(reason: Option<string>)
      modifies this
      ensures failureReason == reason
      ensures args == old(args) && successful == old(successful)
    {
      failureReason := reason;
    }
  }

  /** `String[].clone()`: a fresh array with the same elements. */
  method CopyOf(a: array<string>) returns (r: array<string>)
    ensures fresh(r) && r[..] == a[..]
  {
    r := new string[a.Length];
    var i := 0;
    while i < a.Length
      invariant 0 <= i <= a.Length
      invariant r[..i] == a[..i]
    {
      r[i] := a[i];
      i := i + 1;
    }
  }

  /**
   * The caller's array and the event's are never shared: writing into the array handed to the
   * constructor, or into one returned by `getArgs`, leaves what the event reports unchanged.
   */
  method ArgsAreIsolated(player: OnlineUser, command: string, t: CommandType, phase: ExecutionPhase, given: array<string>)
    returns (first: seq<string>, second: seq<string>)
    requires given.Length > 0
    modifies given
    ensures first == old(given[..]) && second == old(given[..])
  {
    var e := new BukkitChatCommandEvent(player, command, given, t, phase);
    given[0] := "changed";
    var out := e.GetArgs();
    first := out[..];
    out[0] := "changed again";
    var again := e.GetArgs();
    second := again[..];
  }

  /** `BukkitMessageFilterEvent`: the filtered text, the blocked flag and the reason can be changed. */
  class BukkitMessageFilterEvent {
    const sender: OnlineUser
    const originalMessage: string
    var filteredMessage: string
    const filterType: FilterType
    const filterName: string
    var filterReason: Option<string>
    var blocked: bool

    constructor (sender: OnlineUser, originalMessage: string, filteredMessage: string, filterType: FilterType, filterName: string)
      ensures this.sender == sender && this.originalMessage == originalMessage && this.filteredMessage == filteredMessage
      ensures this.filterType == filterType && this.filterName == filterName
      ensures !blocked && filterReason.None?
    {
      this.sender := sender;
      this.originalMessage := originalMessage;
      this.filteredMessage := filteredMessage;
      this.filterType := filterType;
      this.filterName := filterName;
      filterReason := None;
      blocked := false;
    }

    method SetFilteredMessage(message: string)
      modifies this
      ensures filteredMessage == message && blocked == old(blocked) && filterReason == old(filterReason)
    {
      filteredMessage := message;
    }

    method SetFilterReason(reason: Option<string>)
      modifies this
      ensures filterReason == reason && blocked == old(blocked) && filteredMessage == old(filteredMessage)
    {
      filterReason := reason;
    }

    method SetBlocked(blocked: bool)
      modifies this
      ensures this.blocked == blocked && filteredMessage == old(filteredMessage) && filterReason == old(filterReason)
    {
      this.blocked := blocked;
    }
  }

  /** `BukkitPlayerDeathEvent`: the message, whether to send it and its channel can be changed. */
  class BukkitPlayerDeathEvent {
    const player: OnlineUser
    var deathMessage: string
    const deathCause: DeathCause
    const killer: Option<OnlineUser>
    const deathLocation: PlayerLocation
    var sendDeathMessage: bool
    var deathMessageChannel: Option<string>

    constructor (player: OnlineUser, deathMessage: string, deathCause: DeathCause, killer: Option<OnlineUser>, deathLocation: PlayerLocation)
      ensures this.player == player && this.deathMessage == deathMessage && this.deathCause == deathCause
      ensures this.killer == killer && this.deathLocation == deathLocation
      ensures sendDeathMessage && deathMessageChannel.None?
    {
      this.player := player;
      this.deathMessage := deathMessage;
      this.deathCause := deathCause;
      this.killer := killer;
      this.deathLocation := deathLocation;
      sendDeathMessage := true;
      deathMessageChannel := None;
    }

    method SetDeathMessage(message: string)
      modifies this
      ensures deathMessage == message
      ensures sendDeathMessage == old(sendDeathMessage) && deathMessageChannel == old(deathMessageChannel)
    {
      deathMessage := message;
    }

    method SetSendDeathMessage(send: bool)
      modifies this
      ensures sendDeathMessage == send
      ensures deathMessage == old(deathMessage) && deathMessageChannel == old(deathMessageChannel)
    {
      sendDeathMessage := send;
    }

    method SetDeathMessageChannel(channelId: Option<string>)
      modifies this
      ensures deathMessageChannel == channelId
      ensures deathMessage == old(deathMessage) && sendDeathMessage == old(sendDeathMessage)
    {
      deathMessageChannel := channelId;
    }
  }

  /** `BukkitPlayerRespawnEvent`: the location, whether to send a message and its channel can be changed. */
  class BukkitPlayerRespawnEvent {
    const player: OnlineUser
    var respawnLocation: PlayerLocation
    const reason: RespawnReason
    var sendRespawnMessage: bool
    var respawnMessageChannel: Option<string>

    constructor (player: OnlineUser, respawnLocation: PlayerLocation, reason: RespawnReason)
      ensures this.player == player && this.respawnLocation == respawnLocation && this.reason == reason
      ensures !sendRespawnMessage && respawnMessageChannel.None?
    {
      this.player := player;
      this.respawnLocation := respawnLocation;
      this.reason := reason;
      sendRespawnMessage := false;
      respawnMessageChannel := None;
    }

    method SetRespawnLocation(location: PlayerLocation)
      modifies this
      ensures respawnLocation == location
      ensures sendRespawnMessage == old(sendRespawnMessage) && respawnMessageChannel == old(respawnMessageChannel)
    {
      respawnLocation := location;
    }

    method SetSendRespawnMessage(send: bool)
      modifies this
      ensures sendRespawnMessage == send
      ensures respawnLocation == old(respawnLocation) && respawnMessageChannel == old(respawnMessageChannel)
    {
      sendRespawnMessage := send;
    }

    method SetRespawnMessageChannel(channelId: Option<string>)
      modifies this
      ensures respawnMessageChannel == channelId
      ensures respawnLocation == old(respawnLocation) && sendRespawnMessage == old(sendRespawnMessage)
    {
      respawnMessageChannel := channelId;
    }
  }
}
