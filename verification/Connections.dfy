/** The connections of one server: sessions of clients, links to peers, and the
    indexes over both. */
module Connections {
  import opened Bytes
  import opened Frames
  import opened Nodes
  import opened Sets

  class ClientSession {
    /** The handle of the session's socket. */
    const handle: Handle
    var username: Text
    var authenticated: bool
    var joinedRooms: set<Text>
    /** What `SendPacket` has been called with. */
    var log: seq<ClientMessage>

    constructor (handle: Handle)
      ensures this.handle == handle
      ensures Value() == Session([], false, {}, [])
    {
      this.handle := handle;
      username, authenticated, joinedRooms, log := [], false, {}, [];
    }

    ghost function Value(): Session
      reads this
    {
      Session(username, authenticated, joinedRooms, log)
    }

    method SetUsername(name: Text)
      modifies `username
      ensures Value() == old(Value()).(name := name)
    {
      username := name;
    }

    method SetAuthenticated(value: bool)
      modifies `authenticated
      ensures Value() == old(Value()).(authenticated := value)
    {
      authenticated := value;
    }

    method JoinRoom(room: Text)
      modifies `joinedRooms
      ensures Value() == old(Value()).(rooms := old(Value()).rooms + {room})
    {
      joinedRooms := joinedRooms + {room};
    }

    method LeaveRoom(room: Text)
      modifies `joinedRooms
      ensures Value() == old(Value()).(rooms := old(Value()).rooms - {room})
    {
      joinedRooms := joinedRooms - {room};
    }

    predicate IsInRoom(room: Text)
      reads `joinedRooms
    {
      room in joinedRooms
    }

    method SendPacket(m: ClientMessage)
      modifies `log
      ensures log == old(log) + [m]
    {
      log := log + [m];
    }
  }

  class ServerNode {
    const serverId: int
    var socket: Option<Handle>
    var isConnected: bool
    /** Milliseconds on the steady clock. */
    var lastHeartbeat: nat
    /** What has been written to the socket and not yet handled by the peer. */
    var outbox: seq<Packet>

    constructor (serverId: int, now: nat)
      ensures this.serverId == serverId && Valid() && !isConnected && outbox == []
    {
      this.serverId := serverId;
      socket, isConnected, lastHeartbeat, outbox := None, false, now, [];
    }

    /** Connected exactly while there is a socket. */
    ghost predicate Valid()
      reads this
    {
      isConnected <==> socket.Some?
    }

    /** Giving up the socket gives up what is under way on it. A fresh socket counts as
        a sign of life. */
    method SetSocket(s: Option<Handle>, now: nat)
      modifies this
      ensures Valid()
      ensures socket == s && isConnected == s.Some?
      ensures outbox == if s.Some? then old(outbox) else []
      ensures lastHeartbeat == if s.Some? then now else old(lastHeartbeat)
    {
      socket := s;
      isConnected := s.Some?;
      if isConnected {
        UpdateHeartbeat(now);
      } else {
        outbox := [];
      }
    }

    method UpdateHeartbeat(now: nat)
      modifies `lastHeartbeat
      ensures lastHeartbeat == now
    {
      lastHeartbeat := now;
    }

    method Send(p: Packet)
      modifies `outbox
      ensures outbox == old(outbox) + [p]
    {
      outbox := outbox + [p];
    }
  }

  class ConnectionManager {
    var bySocket: map<Handle, ClientSession>
    var byName: map<Text, ClientSession>
    var peers: map<int, ServerNode>
    /** The order in which `peers` is iterated. */
    var order: seq<int>
    /** Every session there has been. */
    ghost var all: map<Handle, ClientSession>

    constructor ()
      ensures Valid()
      ensures bySocket == map[] && byName == map[] && peers == map[] && order == [] && all == map[]
    {
      bySocket, byName, peers, order, all := map[], map[], map[], [], map[];
    }

    ghost predicate Valid()
      reads this, peers.Values
    {
      && (forall h <- all :: all[h].handle == h)
      && (forall h <- bySocket :: h in all && bySocket[h] == all[h])
      && (forall u <- byName :: Known(byName[u]))
      && (forall p <- peers :: peers[p].serverId == p && peers[p].Valid())
      && Lists(order, peers.Keys)
    }

    ghost predicate Known(s: ClientSession)
      reads this
    {
      s.handle in all && all[s.handle] == s
    }

    method AddSession(s: ClientSession)
      requires Valid() && s.handle !in all
      modifies this
      ensures Valid() && Known(s)
      ensures all == old(all)[s.handle := s] && bySocket == old(bySocket)[s.handle := s]
      ensures byName == old(byName) && peers == old(peers) && order == old(order)
    {
      bySocket := bySocket[s.handle := s];
      all := all[s.handle := s];
    }

    method AuthenticateSession(s: ClientSession, username: Text)
      requires Valid() && Known(s)
      modifies `byName, s`username, s`authenticated
      ensures Valid()
      ensures s.username == username && s.authenticated
      ensures byName == old(byName)[username := s]
    {
      s.SetUsername(username);
      s.SetAuthenticated(true);
      byName := byName[username := s];
    }

    /** The name is erased whoever is registered under it. */
    method RemoveSession(h: Handle)
      requires Valid()
      modifies `bySocket, `byName
      ensures Valid()
      ensures bySocket == old(bySocket) - {h}
      ensures h in old(bySocket) && old(bySocket)[h].username != [] ==>
                byName == old(byName) - {old(bySocket)[h].username}
      ensures h !in old(bySocket) || old(bySocket)[h].username == [] ==> byName == old(byName)
    {
      if h in bySocket {
        var username := bySocket[h].username;
        if username != [] {
          byName := byName - {username};
        }
        bySocket := bySocket - {h};
      }
    }

    function GetSessionByUsername(username: Text): ClientSession?
      reads `byName
    {
      if username in byName then byName[username] else null
    }

    /** Every session of the socket index, once. */
    method GetAllSessions() returns (sessions: seq<ClientSession>)
      requires Valid()
      ensures forall s <- sessions :: s.handle in bySocket && bySocket[s.handle] == s
      ensures forall h <- bySocket :: bySocket[h] in sessions
      ensures forall i, j | 0 <= i < j < |sessions| :: sessions[i] != sessions[j]
    {
      sessions := [];
      var ahead := bySocket.Keys;
      while ahead != {}
        invariant ahead <= bySocket.Keys
        invariant forall s <- sessions :: s.handle in bySocket && s.handle !in ahead && bySocket[s.handle] == s
        invariant forall h <- bySocket | h !in ahead :: bySocket[h] in sessions
        invariant forall i, j | 0 <= i < j < |sessions| :: sessions[i] != sessions[j]
        decreases |ahead|
      {
        ghost var witnessed := Any(ahead);
        var h :| h in ahead;
        ahead := ahead - {h};
        sessions := sessions + [bySocket[h]];
      }
    }

    /** A node that was there under the same id is replaced. */
    method AddPeerNode(node: ServerNode)
      requires Valid() && node.Valid()
      modifies `peers, `order
      ensures Valid()
      ensures peers == old(peers)[node.serverId := node]
      ensures order == if node.serverId in old(peers) then old(order) else old(order) + [node.serverId]
    {
      if node.serverId !in peers {
        order := order + [node.serverId];
      }
      peers := peers[node.serverId := node];
    }

    /** The nodes on which an operation naming a server works. */
    ghost function NodeOf(serverId: int): set<ServerNode>
      reads `peers
    {
      if serverId in peers then {peers[serverId]} else {}
    }

    method RegisterPeerSocket(serverId: int, socket: Handle, now: nat)
      requires Valid()
      modifies NodeOf(serverId)
      ensures Valid()
      ensures serverId in peers ==>
                peers[serverId].isConnected && peers[serverId].lastHeartbeat == now &&
                peers[serverId].socket == Some(socket) && peers[serverId].outbox == old(peers[serverId].outbox)
      ensures forall p <- peers | p != serverId ::
        peers[p].isConnected == old(peers[p].isConnected) && peers[p].outbox == old(peers[p].outbox)
    {
      if serverId in peers {
        peers[serverId].SetSocket(Some(socket), now);
      }
    }

    method UnregisterPeerSocket(serverId: int)
      requires Valid()
      modifies NodeOf(serverId)
      ensures Valid()
      ensures serverId in peers ==> !peers[serverId].isConnected && peers[serverId].outbox == []
      ensures serverId in peers ==> peers[serverId].lastHeartbeat == old(peers[serverId].lastHeartbeat)
    {
      if serverId in peers {
        peers[serverId].SetSocket(None, 0);
      }
    }

    function GetPeerNode(serverId: int): ServerNode?
      reads `peers
    {
      if serverId in peers then peers[serverId] else null
    }

    method GetAllPeerNodes() returns (nodes: seq<ServerNode>)
      requires Valid()
      ensures |nodes| == |order| && forall i | 0 <= i < |order| :: order[i] in peers && nodes[i] == peers[order[i]]
    {
      nodes := [];
      for i := 0 to |order|
        invariant |nodes| == i
        invariant forall k | 0 <= k < i :: order[k] in peers && nodes[k] == peers[order[k]]
      {
        assert order[i] in order;
        nodes := nodes + [peers[order[i]]];
      }
    }
  }
}
