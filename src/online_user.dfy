/**
 * `OnlineUser` as the core sees it: one of the three platform users or the console. The
 * core's `instanceof VelocityUser` (and so on) tests are the constructor tests of this datatype,
 * and the interface methods it calls are dispatched here.
 */
module OnlineUsers {
  import opened Wrappers
  import opened Values
  import opened StatusTypes
  import opened StatusCache
  import PlayerInfo
  import Locations
  import Console
  import V = VelocityUsers
  import B = BungeeUsers
  import K = BukkitUsers

  datatype OnlineUser =
    | OnVelocity(velocity: V.VelocityUser)
    | OnBungee(bungee: B.BungeeUser)
    | OnBukkit(bukkit: K.BukkitUser)
    | OnConsole(console: Console.ConsoleUser)

  /** The mutable object behind a user, if any. */
  function Footprint(u: OnlineUser): set<object>
  {
    match u
    case OnVelocity(v) => {v}
    case OnBungee(b) => {b}
    case OnBukkit(k) => {k}
    case OnConsole(_) => {}
  }

  /** The mutable objects behind a list of online users. */
  function Objects(online: seq<OnlineUser>): set<object>
  {
    set i, o | 0 <= i < |online| && o in Footprint(online[i]) :: o
  }

  /** The user's status cache obeys the kind discipline (the console has none). */
  ghost predicate Valid(u: OnlineUser)
    reads Footprint(u)
  {
    match u
    case OnVelocity(v) => v.Valid()
    case OnBungee(b) => b.Valid()
    case OnBukkit(k) => k.Valid()
    case OnConsole(_) => true
  }

  ghost predicate AllValid(online: seq<OnlineUser>)
    reads Objects(online)
  {
    forall i :: 0 <= i < |online| ==> Valid(online[i])
  }

  function UuidOf(u: OnlineUser): Uuid
  {
    match u
    case OnVelocity(v) => v.Uuid()
    case OnBungee(b) => b.Uuid()
    case OnBukkit(k) => k.Uuid()
    case OnConsole(c) => c.Uuid()
  }

  /** `getUsername` (and `getName`, which returns the same). */
  function NameOf(u: OnlineUser): string
  {
    match u
    case OnVelocity(v) => v.Username()
    case OnBungee(b) => b.Username()
    case OnBukkit(k) => k.Username()
    case OnConsole(c) => c.Username()
  }

  function ServerNameOf(u: OnlineUser): string
  {
    match u
    case OnVelocity(v) => v.ServerName()
    case OnBungee(b) => b.ServerName()
    case OnBukkit(k) => k.ServerName()
    case OnConsole(c) => c.ServerName()
  }

  function HasPermission(u: OnlineUser, node: Option<string>, allowByDefault: bool): bool
  {
    match u
    case OnVelocity(v) => v.HasPermission(node, allowByDefault)
    case OnBungee(b) => b.HasPermission(node, allowByDefault)
    case OnBukkit(k) => k.HasPermission(node, allowByDefault)
    case OnConsole(c) => c.HasPermission(node, allowByDefault)
  }

  predicate IsMuted(u: OnlineUser)
    reads Footprint(u)
    requires Valid(u)
  {
    match u
    case OnVelocity(v) => v.IsMuted()
    case OnBungee(b) => b.IsMuted()
    case OnBukkit(k) => k.IsMuted()
    case OnConsole(c) => c.IsMuted()
  }

  predicate IsInCombat(u: OnlineUser)
    reads Footprint(u)
    requires Valid(u)
  {
    match u
    case OnVelocity(v) => v.IsInCombat()
    case OnBungee(b) => b.IsInCombat()
    case OnBukkit(k) => k.IsInCombat()
    case OnConsole(c) => c.IsInCombat()
  }

  function Health(u: OnlineUser): real
    reads Footprint(u)
    requires Valid(u)
  {
    match u
    case OnVelocity(v) => v.Health()
    case OnBungee(b) => b.Health()
    case OnBukkit(k) => k.Health()
    case OnConsole(c) => c.Health()
  }

  function MaxHealth(u: OnlineUser): real
    reads Footprint(u)
    requires Valid(u)
  {
    match u
    case OnVelocity(v) => v.MaxHealth()
    case OnBungee(b) => b.MaxHealth()
    case OnBukkit(k) => k.MaxHealth()
    case OnConsole(c) => c.MaxHealth()
  }

  /** `PlayerInfo.isCriticalHealth` over the user's own health readings. */
  predicate IsCriticalHealth(u: OnlineUser)
    reads Footprint(u)
    requires Valid(u)
  {
    PlayerInfo.IsCriticalHealth(Health(u), MaxHealth(u))
  }

  function GetStatus(u: OnlineUser, t: StatusType): Option<Value>
    reads Footprint(u)
  {
    match u
    case OnVelocity(v) => v.GetStatus(t)
    case OnBungee(b) => b.GetStatus(t)
    case OnBukkit(k) => k.GetStatus(t)
    case OnConsole(c) => c.GetStatus(t)
  }

  /** Whether `getLocation` is modelled for this user: `VelocityPlayerLocation` is not part of this model. */
  predicate HasLocation(u: OnlineUser)
  {
    !u.OnVelocity?
  }

  function LocationOf(u: OnlineUser): Locations.PlayerLocation
    reads Footprint(u)
    requires HasLocation(u) && Valid(u)
  {
    match u
    case OnBungee(b) => b.Location()
    case OnBukkit(k) => k.Location()
    case OnConsole(c) => c.Location()
  }

  /** `findFirst` over the online users with a matching UUID. */
  function FindByUuid(online: seq<OnlineUser>, uuid: Uuid): (r: Option<OnlineUser>)
    ensures r.Some? ==> r.value in online && UuidOf(r.value) == uuid
    ensures r.None? <==> forall i :: 0 <= i < |online| ==> UuidOf(online[i]) != uuid
    ensures r.Some? ==> exists k :: 0 <= k < |online| && online[k] == r.value
                                    && forall j :: 0 <= j < k ==> UuidOf(online[j]) != uuid
  {
    if online == [] then None
    else if UuidOf(online[0]) == uuid then Some(online[0])
    else
      var rest := FindByUuid(online[1..], uuid);
      if rest.Some? then
        var k :| 0 <= k < |online[1..]| && online[1..][k] == rest.value
                 && forall j :: 0 <= j < k ==> UuidOf(online[1..][j]) != uuid;
        assert online[k + 1] == rest.value;
        rest
      else rest
  }

  /** `findFirst` over the online users with exactly (case-sensitively) that name. */
  function FindByName(online: seq<OnlineUser>, name: string): (r: Option<OnlineUser>)
    ensures r.Some? ==> r.value in online && NameOf(r.value) == name
    ensures r.None? <==> forall i :: 0 <= i < |online| ==> NameOf(online[i]) != name
    ensures r.Some? ==> exists k :: 0 <= k < |online| && online[k] == r.value
                                    && forall j :: 0 <= j < k ==> NameOf(online[j]) != name
  {
    if online == [] then None
    else if NameOf(online[0]) == name then Some(online[0])
    else
      var rest := FindByName(online[1..], name);
      if rest.Some? then
        var k :| 0 <= k < |online[1..]| && online[1..][k] == rest.value
                 && forall j :: 0 <= j < k ==> NameOf(online[1..][j]) != name;
        assert online[k + 1] == rest.value;
        rest
      else rest
  }

  /** A member of a valid list is valid, and its object is among the list's objects. */
  lemma MemberValid(online: seq<OnlineUser>, u: OnlineUser)
    requires AllValid(online) && u in online
    ensures Valid(u) && Footprint(u) <= Objects(online)
  {
    var i :| 0 <= i < |online| && online[i] == u;
  }
}
