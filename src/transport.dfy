/**
 * What the core sends on the "huskchat:player_status" plugin channel. Encoding and the
 * platform's send call are outside the model; a send is a record in an outbox.
 */
module Transport {
  import opened Values
  import opened StatusTypes
  import opened Messages

  datatype Outgoing =
      /** A proxy's send to one backend server, by name. */
    | ToServer(server: string, message: PlayerStatusMessage)
      /** A backend's `player.sendPluginMessage`, which travels to the proxy over that player's connection. */
    | ToProxy(via: Uuid, message: PlayerStatusMessage)

  /** One send of `m` to each of `servers`, in order. */
  function BroadcastTo(servers: seq<string>, m: PlayerStatusMessage): (r: seq<Outgoing>)
    ensures |r| == |servers|
    ensures forall i :: 0 <= i < |servers| ==> r[i] == ToServer(servers[i], m)
  {
    if servers == [] then [] else [ToServer(servers[0], m)] + BroadcastTo(servers[1..], m)
  }

  /** Broadcasting to one more server appends exactly one send to it. */
  lemma BroadcastToSnoc(servers: seq<string>, s: string, m: PlayerStatusMessage)
    ensures BroadcastTo(servers + [s], m) == BroadcastTo(servers, m) + [ToServer(s, m)]
  {
    var l := BroadcastTo(servers + [s], m);
    var r := BroadcastTo(servers, m) + [ToServer(s, m)];
    assert |l| == |r|;
    forall i | 0 <= i < |l| ensures l[i] == r[i] {
      if i < |servers| {
        assert (servers + [s])[i] == servers[i];
      }
    }
  }

  /** A broadcast reaches every listed server and no other, always with the same message. */
  lemma {:induction false} BroadcastReachesExactlyTheServers(servers: seq<string>, m: PlayerStatusMessage, o: Outgoing)
    ensures o in BroadcastTo(servers, m) <==> o.ToServer? && o.server in servers && o.message == m
  {
    var r := BroadcastTo(servers, m);
    if o.ToServer? && o.server in servers && o.message == m {
      var i :| 0 <= i < |servers| && servers[i] == o.server;
      assert r[i] == o;
    }
  }
}
