/** Heartbeats: on every tick a server gives up the peers it has not heard of for
    fifteen seconds and pings the others. Times are milliseconds. */
module Heartbeats {
  import opened Connections
  import opened Frames
  import opened Messages
  import opened Nodes
  import opened Server
  import Decimal

  const TIMEOUT_SECONDS: int := 15

  const TIMEOUT: nat := 15000

  /** `duration_cast` to seconds: towards zero. A sign of life can be later than the
      clock reading it is compared with. */
  function Seconds(now: nat, last: nat): int {
    if now >= last then (now - last) / 1000 else -((last - now) / 1000)
  }

  predicate Expired(now: nat, last: nat) {
    Seconds(now, last) >= TIMEOUT_SECONDS
  }

  lemma ExpiredAfter(now: nat, last: nat)
    ensures Expired(now, last) <==> now >= last + 15000
  {
  }

  lemma Failing(heard: map<int, nat>, now: nat, p: int, broken: set<int>)
    requires p in heard
    ensures p in broken + TimedOut(heard, now) <==> p in broken || Expired(now, heard[p])
  {
  }

  // One tick of one server.

  /** The connected peers that have been silent too long. */
  function TimedOut(heard: map<int, nat>, now: nat): set<int> {
    set p | p in heard && Expired(now, heard[p])
  }

  /** A tick sends every connected peer a ping, except that a peer that has timed out
      counts as one whose socket has failed. */
  method Tick(server: ChatServer, now: nat, broken: set<int>)
    requires server.Valid()
    modifies server.users, server.rooms, server.conns.peers.Values, server.conns.all.Values`log
    ensures server.Valid()
    ensures server.State() ==
            SendEach(old(server.State()), server.conns.order, Heartbeat, broken + TimedOut(old(server.Heard()), now))
  {
    ghost var heard := server.Heard();
    var peers := server.conns.GetAllPeerNodes();
    assert server.State() == old(server.State());
    assert server.Heard() == heard;
    BeatEach(server, peers, now, broken, heard);
  }

  method BeatEach(server: ChatServer, peers: seq<ServerNode>, now: nat, broken: set<int>, ghost heard: map<int, nat>)
    requires server.Valid() && server.Heard() == heard
    requires |peers| == |server.conns.order|
    requires forall i | 0 <= i < |peers| ::
      server.conns.order[i] in server.conns.peers && peers[i] == server.conns.peers[server.conns.order[i]]
    modifies server.users, server.rooms, server.conns.peers.Values, server.conns.all.Values`log
    ensures server.Valid()
    ensures server.State() ==
            SendEach(old(server.State()), server.conns.order, Heartbeat, broken + TimedOut(heard, now))
  {
    ghost var failing := broken + TimedOut(heard, now);
    ghost var order := server.conns.order;
    for i := 0 to |peers|
      invariant server.Valid() && server.Heard() == heard
      invariant SendEach(server.State(), order[i..], Heartbeat, failing) ==
                SendEach(old(server.State()), order, Heartbeat, failing)
    {
      Beat(server, peers[i], now, broken, heard);
      assert order[i..][1..] == order[i + 1..];
    }
  }

  method Beat(server: ChatServer, peer: ServerNode, now: nat, broken: set<int>, ghost heard: map<int, nat>)
    requires server.Valid() && peer.serverId in server.conns.peers && server.conns.peers[peer.serverId] == peer
    requires server.Heard() == heard
    modifies server.users, server.rooms, server.conns.peers.Values, server.conns.all.Values`log
    ensures server.Valid()
    ensures server.Heard() == heard
    ensures server.State() ==
            SendOne(old(server.State()), peer.serverId, Heartbeat, broken + TimedOut(heard, now))
  {
    Failing(heard, now, peer.serverId, broken);
    if peer.isConnected {
      if Expired(now, peer.lastHeartbeat) {
        server.HandlePeerDisconnect(peer.serverId);
      } else {
        server.SendTo(peer, Packet(S2S_HEARTBEAT, Decimal.ToString(server.serverId)), Heartbeat, broken);
      }
    }
  }
}
