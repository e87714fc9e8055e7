/** `ConsoleUser`: the server console presented as an online user with fixed answers. */
module Console {
  import opened Wrappers
  import opened Values
  import opened Text
  import opened StatusTypes
  import PlayerInfo
  import Locations

  const ConsoleUuid: Uuid := Uuid(0, 0)
  const ConsoleUsername: string := "[CONSOLE]"

  /** The console user; `platform` is what `plugin.getPlatform()` reports. */
  datatype ConsoleUser = ConsoleUser(platform: string)
  {
    function Uuid(): Uuid { ConsoleUuid }
    function Username(): string { ConsoleUsername }
    function ServerName(): string { platform }
    function Ping(): int { 0 }

    /** The console holds every permission, whatever the node and the default. */
    function HasPermission(node: Option<string>, allowByDefault: bool): (r: bool)
      ensures r
    {
      true
    }

    function Health(): real { 20.0 }
    function MaxHealth(): real { 20.0 }
    function FoodLevel(): int { 20 }
    function ExperienceLevel(): int { 0 }
    function GameMode(): PlayerInfo.GameMode { PlayerInfo.Creative }
    function Location(): Locations.PlayerLocation
    {
      Locations.PlayerLocation(Locations.DefaultLocation, "console", "console", 0.0, 0.0, 0.0, 0.0, 0.0)
    }
    predicate IsOnline() { true }
    predicate IsSneaking() { false }
    predicate IsFlying() { false }
    predicate IsVanished() { false }
    predicate IsMuted() { false }
    predicate IsInCombat() { false }
    predicate IsAway() { false }

    /** The console carries no status values. */
    function GetStatus(t: StatusType): (r: Option<Value>)
      ensures r.None?
    {
      None
    }

    function GetAllStatuses(): (r: map<StatusType, Value>)
      ensures |r| == 0
    {
      map[]
    }
  }

  /** `ConsoleUser.wrap`. */
  function Wrap(platform: string): (c: ConsoleUser)
    ensures IsConsoleUuid(c.Uuid()) && IsConsoleName(c.Username())
    ensures c.ServerName() == platform
  {
    ConsoleUser(platform)
  }

  /** `isConsolePlayer(UUID)`: equality with the all-zero UUID. */
  predicate IsConsoleUuid(uuid: Uuid)
  {
    uuid == ConsoleUuid
  }

  /** `isConsolePlayer(String)`: a case-insensitive match against "[CONSOLE]". */
  predicate IsConsoleName(username: string)
  {
    EqualsIgnoreCase(username, ConsoleUsername)
  }

  /** Any casing of the console's name is recognised, and nothing else is. */
  lemma {:induction false} ConsoleNameIgnoresCase(username: string)
    ensures IsConsoleName(username) <==> Lower(username) == "[console]"
    ensures IsConsoleName("[console]") && IsConsoleName("[Console]")
  {
    ConsoleSpellingsLower();
  }

  /** The lower-cased forms of the console's name and of two of its spellings. */
  lemma ConsoleSpellingsLower()
    ensures Lower(ConsoleUsername) == "[console]"
    ensures Lower("[Console]") == "[console]" && Lower("[console]") == "[console]"
  {
    ConsoleNameLower();
    MixedCaseLower();
    LowerCaseLower();
  }

  lemma ConsoleNameLower()
    ensures Lower(ConsoleUsername) == "[console]"
  {
    LowerWord(ConsoleUsername, "[console]");
  }

  lemma MixedCaseLower()
    ensures Lower("[Console]") == "[console]"
  {
    LowerWord("[Console]", "[console]");
  }

  lemma LowerCaseLower()
    ensures Lower("[console]") == "[console]"
  {
    LowerOfLowercase("[console]");
  }

  /** The console is never muted, in combat or away, and its permission check never refuses. */
  lemma ConsoleNeverRestricted(c: ConsoleUser, node: Option<string>, allowByDefault: bool)
    ensures !c.IsMuted() && !c.IsInCombat() && !c.IsAway()
    ensures c.HasPermission(node, allowByDefault)
  {
  }
}
