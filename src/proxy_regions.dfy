/**
 * The proxy versions of the location helpers, which the Velocity and BungeeCord extended APIs
 * share word for word: a proxy cannot see positions, so a server stands for a region.
 */
module ProxyRegions {
  import Search
  import opened Wrappers
  import opened Values
  import opened StatusTypes
  import opened Text
  import opened OnlineUsers
  import Locations

  /** `getNearbyPlayers`: the other online users on the same server, in the online list's order. */
  function NearbyOnServer(online: seq<OnlineUser>, player: OnlineUser): (r: seq<OnlineUser>)
    ensures forall i :: 0 <= i < |r| ==> r[i] in online && UuidOf(r[i]) != UuidOf(player)
                                          && ServerNameOf(r[i]) == ServerNameOf(player)
    ensures forall i :: (0 <= i < |online| && UuidOf(online[i]) != UuidOf(player)
                         && ServerNameOf(online[i]) == ServerNameOf(player)) ==> online[i] in r
    ensures r == Search.Keep(online, u => UuidOf(u) != UuidOf(player) && ServerNameOf(u) == ServerNameOf(player))
  {
    if online == [] then []
    else
      var rest := NearbyOnServer(online[1..], player);
      if UuidOf(online[0]) != UuidOf(player) && ServerNameOf(online[0]) == ServerNameOf(player)
      then [online[0]] + rest else rest
  }

  /** The player never counts as near themselves. */
  lemma {:induction false} NotNearSelf(online: seq<OnlineUser>, player: OnlineUser)
    ensures player !in NearbyOnServer(online, player)
  {
    var r := NearbyOnServer(online, player);
    forall i | 0 <= i < |r| ensures r[i] != player {
      assert UuidOf(r[i]) != UuidOf(player);
    }
  }

  /** `arePlayersInSameRegion`: the two server names are equal. */
  predicate SameServer(a: OnlineUser, b: OnlineUser)
  {
    ServerNameOf(a) == ServerNameOf(b)
  }

  /** `createLocationBasedChannel`: "server_", the server name, "_", the radius cast to `int`. */
  function ServerChannelId(player: OnlineUser, radius: real): string
  {
    "server_" + ServerNameOf(player) + "_" + IntToString(Locations.JavaIntCast(radius))
  }

  /**
   * For radii with the same integer part, two players get the same server channel exactly when
   * they are on the same server: the channel id names the region and nothing else.
   */
  lemma {:induction false} ServerChannelIdIffSameServer(a: OnlineUser, b: OnlineUser, r1: real, r2: real)
    requires Locations.JavaIntCast(r1) == Locations.JavaIntCast(r2)
    ensures ServerChannelId(a, r1) == ServerChannelId(b, r2) <==> SameServer(a, b)
  {
    var suffix := "_" + IntToString(Locations.JavaIntCast(r1));
    assert ServerChannelId(a, r1) == "server_" + ServerNameOf(a) + suffix;
    assert ServerChannelId(b, r2) == "server_" + ServerNameOf(b) + suffix;
    MiddleDetermined("server_", ServerNameOf(a), ServerNameOf(b), suffix);
  }
}
