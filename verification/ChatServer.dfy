/** One server as the objects it is made of. Every handler is proved to take the state
    it finds to the state that its function in `Node` names. */
module Server {
  import opened Bytes
  import opened ChatRooms
  import opened Connections
  import opened Fields
  import opened Frames
  import opened Messages
  import opened Nodes
  import opened Sets
  import opened Users
  import Decimal

  /** Packets on a link as their receiver will read them. */
  ghost function Underway(ps: seq<Packet>): (ms: seq<Message>)
    ensures |ms| == |ps|
  {
    seq(|ps|, i requires 0 <= i < |ps| => Decode(ps[i]))
  }

  ghost predicate Posted(s: Session, t: Session, reached: bool, m: ClientMessage) {
    t == s.(log := s.log + if reached then [m] else [])
  }

  lemma PostedSessions(n: Node, to: set<Handle>, m: ClientMessage, sessions: map<Handle, Session>)
    requires sessions.Keys == n.sessions.Keys
    requires forall h <- sessions :: Posted(n.sessions[h], sessions[h], h in to, m)
    ensures n.(sessions := sessions) == Post(n, to, m)
  {
    forall h | h in sessions ensures sessions[h] == Post(n, to, m).sessions[h] {
      assert Posted(n.sessions[h], sessions[h], h in to, m);
    }
    assert sessions == Post(n, to, m).sessions;
  }

  lemma OneMoreName(n: Node, done: set<Text>, u: Text, m: ClientMessage)
    requires u !in done
    ensures forall h :: Copies(m, |NamesOf(n, done + {u}, h)|) ==
                        Copies(m, |NamesOf(n, done, h)|) + if u in n.byName && n.byName[u] == h then [m] else []
  {
    forall h
      ensures Copies(m, |NamesOf(n, done + {u}, h)|) ==
              Copies(m, |NamesOf(n, done, h)|) + if u in n.byName && n.byName[u] == h then [m] else []
    {
      if u in n.byName && n.byName[u] == h {
        assert NamesOf(n, done + {u}, h) == NamesOf(n, done, h) + {u};
      } else {
        assert NamesOf(n, done + {u}, h) == NamesOf(n, done, h);
      }
    }
  }

  ghost predicate Copied(n: Node, h: Handle, s: Session, names: set<Text>, m: ClientMessage)
    requires h in n.sessions
  {
    s == n.sessions[h].(log := n.sessions[h].log + Copies(m, |NamesOf(n, names, h)|))
  }

  lemma PostedToNames(n: Node, names: set<Text>, m: ClientMessage, sessions: map<Handle, Session>)
    requires sessions.Keys == n.sessions.Keys
    requires forall h <- sessions :: Copied(n, h, sessions[h], names, m)
    ensures n.(sessions := sessions) == PostToNames(n, names, m)
  {
    forall h | h in sessions ensures sessions[h] == PostToNames(n, names, m).sessions[h] {
      assert Copied(n, h, sessions[h], names, m);
    }
    assert sessions == PostToNames(n, names, m).sessions;
  }

  lemma {:induction false} SelectOne(ps: seq<int>, known: set<int>, t: int)
    requires Lists(ps, known)
    ensures Select(ps, {t}) == if t in known then [t] else []
  {
    if ps != [] {
      var rest := ps[1..];
      forall p ensures p in rest <==> p in known - {ps[0]} {
        if p in rest {
          var i :| 0 <= i < |rest| && rest[i] == p;
          assert ps[i + 1] == p;
        }
      }
      SelectOne(rest, known - {ps[0]}, t);
    }
  }

  function WithRooms(n: Node, h: Handle, rooms: set<Text>): Node
    requires h in n.sessions
  {
    n.(sessions := n.sessions[h := n.sessions[h].(rooms := rooms)])
  }

  lemma AlreadyUp(n: Node, p: int)
    requires p in n.up || p !in n.out
    ensures PeerUp(n, p) == n
  {
    if p in n.out {
      assert n.up + {p} == n.up;
    }
  }

  /** The introduction over a new link makes the other end its peer, whoever the session
      was. */
  lemma Introduced(n: Node, h: Handle, self: int, broken: set<int>)
    requires h in n.sessions && Decimal.InIntRange(self)
    ensures HandleRequest(n, h, ParseRequest(Packet(S2S_CONNECT, Decimal.ToString(self))), broken) ==
            Promote(n, h, self)
  {
    Decimal.StoiToString(self);
  }

  /** Which handler a packet is for. */
  function Dispatch(n: Node, h: Handle, p: Packet, broken: set<int>): Node
    requires h in n.sessions
  {
    var fields := Split(p.payload);
    if p.kind == LOGIN then HandleLogin(n, h, Trim(p.payload), broken)
    else if p.kind == MSG_PRIVATE && |fields| >= 2 then HandlePrivate(n, h, fields[0], fields[1], broken)
    else if p.kind == MSG_ROOM && |fields| >= 2 then HandleRoomText(n, h, fields[0], fields[1], broken)
    else if p.kind == MSG_BROADCAST then HandleBroadcast(n, h, p.payload, broken)
    else if p.kind == ROOM_JOIN then HandleJoin(n, h, Trim(p.payload), broken)
    else if p.kind == ROOM_LEAVE then HandleLeave(n, h, Trim(p.payload), broken)
    else if p.kind == ROOM_CREATE then HandleCreate(n, h, Trim(p.payload))
    else if p.kind == S2S_CONNECT && Decimal.Stoi(p.payload).Some? then Promote(n, h, Decimal.Stoi(p.payload).value)
    else n
  }

  /** Taking a packet apart and handling the request is dispatching on its type. */
  lemma Dispatched(n: Node, h: Handle, p: Packet, broken: set<int>)
    requires h in n.sessions
    ensures HandleRequest(n, h, ParseRequest(p), broken) ==
            if !n.sessions[h].authenticated && p.kind != LOGIN && p.kind != S2S_CONNECT then
              Post(n, {h}, LoginResponse(false, AuthenticationRequired))
            else Dispatch(n, h, p, broken)
  {
    var q, fields := ParseRequest(p), Split(p.payload);
    if p.kind == LOGIN {
      assert q == Login(Trim(p.payload));
    } else if p.kind == MSG_PRIVATE && |fields| >= 2 {
      assert q == Private(fields[0], fields[1]);
    } else if p.kind == MSG_ROOM && |fields| >= 2 {
      assert q == RoomText(fields[0], fields[1]);
    } else if p.kind == MSG_BROADCAST {
      assert q == Broadcast(p.payload);
    } else if p.kind == ROOM_JOIN {
      assert q == Join(Trim(p.payload));
    } else if p.kind == ROOM_LEAVE {
      assert q == Leave(Trim(p.payload));
    } else if p.kind == ROOM_CREATE {
      assert q == Create(Trim(p.payload));
    } else if p.kind == S2S_CONNECT {
      assert q == Connect(Decimal.Stoi(p.payload));
    } else {
      assert q == Dropped;
    }
  }

  /** How the two packets that carry chat are read: by the number of their fields. */
  lemma ChatDecoded(payload: Text)
    ensures var fields := Split(payload);
            Decode(Packet(S2S_ROUTE_MSG, payload)) ==
            (if |fields| == 3 then RoutePrivate(fields[0], fields[1], fields[2])
             else if |fields| == 2 then RouteBroadcast(fields[0], fields[1])
             else Unreadable)
    ensures var fields := Split(payload);
            Decode(Packet(S2S_ROUTE_ROOM_MSG, payload)) ==
            if |fields| >= 3 then RouteRoom(fields[0], fields[1], fields[2]) else Unreadable
  {
  }

  class ChatServer {
    const serverId: int
    const users: UserManager
    const rooms: ChatRoomManager
    const conns: ConnectionManager

    ghost predicate Valid()
      reads conns, conns.peers.Values
    {
      conns.Valid()
    }

    ghost function Sessions(): map<Handle, Session>
      reads conns`all, conns.all.Values
    {
      map h | h in conns.all :: conns.all[h].Value()
    }

    ghost function Names(): map<Text, Handle>
      reads conns`byName
    {
      map u | u in conns.byName :: conns.byName[u].handle
    }

    ghost function Links(): set<int>
      reads conns`peers, conns.peers.Values
    {
      set p | p in conns.peers && conns.peers[p].isConnected
    }

    ghost function Queues(): map<int, seq<Message>>
      reads conns`peers, conns.peers.Values
    {
      map p | p in conns.peers :: Underway(conns.peers[p].outbox)
    }

    /** When each peer was last heard of. */
    ghost function Heard(): map<int, nat>
      reads conns`peers, conns.peers.Values`lastHeartbeat
    {
      map p | p in conns.peers :: conns.peers[p].lastHeartbeat
    }

    /** The server as a value, but for its directory and its rooms. */
    ghost function Connected(): Node
      reads conns, conns.all.Values, conns.peers.Values
    {
      Node.Node(serverId, conns.order, map[], map[], Sessions(), conns.bySocket.Keys, Names(), Links(), Queues())
    }

    /** The server as a value, but for its sessions and their indexes. */
    ghost function Tables(): Node
      reads users, rooms, conns`order, conns`peers, conns.peers.Values
    {
      Node.Node(serverId, conns.order, users.locations, rooms.rooms, map[], {}, map[], Links(), Queues())
    }

    /** The server as a value. */
    ghost function State(): Node
      reads users, rooms, conns, conns.all.Values, conns.peers.Values
    {
      Node.Node(serverId, conns.order, users.locations, rooms.rooms, Sessions(), conns.bySocket.Keys,
                Names(), Links(), Queues())
    }

    constructor (serverId: int)
      ensures Valid() && this.serverId == serverId
      ensures fresh(users) && fresh(rooms) && fresh(conns)
      ensures State() == Node.Node(serverId, [], map[], map[], map[], {}, map[], {}, map[])
    {
      this.serverId := serverId;
      users := new UserManager(serverId);
      rooms := new ChatRoomManager();
      conns := new ConnectionManager();
    }

    /** A peer from the configuration: known, and not connected. */
    method AddPeerConfig(p: int, now: nat)
      requires Valid()
      modifies conns`peers, conns`order
      ensures Valid()
      ensures State() == old(State()).(
        peers := if p in old(Queues()) then old(State()).peers else old(State()).peers + [p],
        up := old(Links()) - {p},
        out := old(Queues())[p := []])
    {
      var node := new ServerNode(p, now);
      conns.AddPeerNode(node);
      assert Sessions() == old(Sessions());
      assert Names() == old(Names());
      assert Links() == old(Links()) - {p};
      assert Queues() == old(Queues())[p := []];
    }

    // Messages to clients.

    /** `SendPacket` on one session. */
    method Tell(session: ClientSession, m: ClientMessage)
      requires Valid() && conns.Known(session)
      modifies session`log
      ensures Valid()
      ensures State() == Post(old(State()), {session.handle}, m)
    {
      session.SendPacket(m);
      assert State().sessions == Post(old(State()), {session.handle}, m).sessions;
    }

    /** The loops over all sessions: the authenticated ones, except for some. */
    method TellAuthenticated(m: ClientMessage, except: set<Handle>)
      requires Valid()
      modifies conns.all.Values`log
      ensures Valid()
      ensures Heard() == old(Heard())
      ensures State() == Post(old(State()), old(State()).Authenticated() - except, m)
    {
      ghost var before := State();
      ghost var to := before.Authenticated() - except;
      TellLive(m, except);
      forall h | h in conns.all ensures Posted(before.sessions[h], Sessions()[h], h in to, m) {
      }
      PostedSessions(before, to, m, Sessions());
      assert Tables() == old(Tables());
    }

    method TellLive(m: ClientMessage, except: set<Handle>)
      requires Valid()
      modifies conns.all.Values`log
      ensures forall h <- conns.all ::
        conns.all[h].log == old(conns.all[h].log) +
          if h in conns.bySocket && conns.all[h].authenticated && h !in except then [m] else []
    {
      var sessions := conns.GetAllSessions();
      forall s | s in sessions ensures s in conns.all.Values {
        assert conns.all[s.handle] == s;
      }
      TellEach(sessions, m, except);
      forall h | h in conns.bySocket ensures conns.all[h] in sessions {
        assert conns.bySocket[h] in sessions;
      }
    }

    method TellEach(sessions: seq<ClientSession>, m: ClientMessage, except: set<Handle>)
      requires forall i, j | 0 <= i < j < |sessions| :: sessions[i] != sessions[j]
      modifies sessions`log
      ensures forall s <- sessions ::
        s.log == old(s.log) + if s.authenticated && s.handle !in except then [m] else []
    {
      for i := 0 to |sessions|
        invariant forall j | 0 <= j < |sessions| ::
          var s := sessions[j];
          s.log == old(s.log) + if j < i && s.authenticated && s.handle !in except then [m] else []
      {
        if sessions[i].authenticated && sessions[i].handle !in except {
          sessions[i].SendPacket(m);
        }
      }
    }

    /** The loops over the members of a room: a name without a session is passed over. */
    method TellNames(names: seq<Text>, m: ClientMessage, ghost s: set<Text>)
      requires Valid() && Lists(names, s)
      modifies conns.all.Values`log
      ensures Valid()
      ensures State() == PostToNames(old(State()), s, m)
    {
      TellMembers(names, m, s);
      assert Tables() == old(Tables());
    }

    method TellMembers(names: seq<Text>, m: ClientMessage, ghost s: set<Text>)
      requires Valid() && Lists(names, s)
      modifies conns.all.Values`log
      ensures Valid() && Sessions() == PostToNames(old(State()), s, m).sessions
    {
      ghost var before := State();
      TellRegistered(names, m, s, before);
      PostedToNames(before, s, m, Sessions());
    }

    /** Every session has had one more copy for each of its names in `done`. */
    ghost predicate Reached(before: Node, done: set<Text>, m: ClientMessage)
      reads conns, conns.all.Values
    {
      forall h <- conns.all :: h in before.sessions && Copied(before, h, conns.all[h].Value(), done, m)
    }

    method TellRegistered(names: seq<Text>, m: ClientMessage, ghost s: set<Text>, ghost before: Node)
      requires Valid() && Lists(names, s) && before.byName == Names() && Reached(before, {}, m)
      modifies conns.all.Values`log
      ensures Valid() && Reached(before, s, m)
    {
      ghost var done: set<Text> := {};
      for i := 0 to |names|
        invariant done <= s
        invariant forall k | 0 <= k < i :: names[k] in done
        invariant forall k | i <= k < |names| :: names[k] !in done
        invariant Reached(before, done, m)
      {
        TellName(names[i], m, before, done);
        done := done + {names[i]};
      }
      assert forall u <- s :: u in names;
      assert done == s;
    }

    method TellName(u: Text, m: ClientMessage, ghost before: Node, ghost done: set<Text>)
      requires Valid() && before.byName == Names() && u !in done && Reached(before, done, m)
      modifies conns.all.Values`log
      ensures Reached(before, done + {u}, m)
    {
      OneMoreName(before, done, u, m);
      var session := conns.GetSessionByUsername(u);
      if session != null {
        assert conns.Known(session);
        session.SendPacket(m);
      }
    }

    /** Everyone authenticated is sent the list of users online. */
    method NotifyOnline(except: set<Handle>)
      requires Valid()
      modifies conns.all.Values`log
      ensures Valid()
      ensures Heard() == old(Heard())
      ensures State() == Announce(old(State()), except)
    {
      var online := users.GetOnlineUsers();
      var names := set u | u in online;
      assert names == users.locations.Keys;
      TellAuthenticated(Presence(names), except);
    }

    // Links.

    /** The link to a peer is given up, with what was under way on it. */
    method Unlink(p: int)
      requires Valid() && p in conns.peers
      modifies conns.peers[p]
      ensures Valid()
      ensures Heard() == old(Heard())
      ensures State() == old(State()).(up := old(Links()) - {p}, out := old(Queues())[p := []])
    {
      conns.UnregisterPeerSocket(p);
      forall q | q in conns.peers && q != p
        ensures conns.peers[q].isConnected == old(conns.peers[q].isConnected)
        ensures conns.peers[q].outbox == old(conns.peers[q].outbox)
      {
        assert conns.peers[q] != conns.peers[p];
      }
      assert Sessions() == old(Sessions());
      assert Links() == old(Links()) - {p};
      assert Queues() == old(Queues())[p := []];
    }

    /** Everything a peer has told is forgotten along with its link. */
    method CutPeer(p: int)
      requires Valid() && p in conns.peers
      modifies users, rooms, conns.peers[p]
      ensures Valid()
      ensures Heard() == old(Heard())
      ensures State() == Cut(old(State()), p)
    {
      Unlink(p);
      ForgetPeer(p);
    }

    method ForgetPeer(p: int)
      requires Valid()
      modifies users, rooms
      ensures Valid()
      ensures Heard() == old(Heard())
      ensures State() == old(State()).(users := Cut(old(State()), p).users, rooms := Cut(old(State()), p).rooms)
    {
      users.ClearServerUsers(p);
      rooms.ClearServerMemberships(p);
      assert Connected() == old(Connected());
    }

    method HandlePeerDisconnect(p: int)
      requires Valid()
      modifies users, rooms, conns.peers.Values, conns.all.Values`log
      ensures Valid()
      ensures Heard() == old(Heard())
      ensures State() == PeerDown(old(State()), p)
    {
      var peer := conns.GetPeerNode(p);
      if peer != null && peer.isConnected {
        CutPeer(p);
        NotifyOnline({});
      }
    }

    /** A frame is written to a link. */
    method Write(peer: ServerNode, packet: Packet, ghost m: Message)
      requires Valid() && peer.serverId in conns.peers && conns.peers[peer.serverId] == peer
      requires packet == Encode(serverId, m)
      modifies peer`outbox
      ensures Valid()
      ensures Heard() == old(Heard())
      ensures State() == Send(old(State()), peer.serverId, m)
    {
      ghost var p := peer.serverId;
      peer.Send(packet);
      forall q | q in conns.peers && q != p ensures conns.peers[q].outbox == old(conns.peers[q].outbox) {
        assert conns.peers[q] != conns.peers[p];
      }
      assert Sessions() == old(Sessions());
      assert Links() == old(Links());
      assert Queues()[p] == old(Queues())[p] + [Wire(serverId, m)];
      assert Queues() == Send(old(State()), p, m).out;
    }

    /** One turn of a send loop over peers. `broken` are the peers whose sockets fail. */
    method SendTo(peer: ServerNode, packet: Packet, ghost m: Message, broken: set<int>)
      requires Valid() && peer.serverId in conns.peers && conns.peers[peer.serverId] == peer
      requires packet == Encode(serverId, m)
      modifies users, rooms, conns.peers.Values, conns.all.Values`log
      ensures Valid()
      ensures Heard() == old(Heard())
      ensures State() == SendOne(old(State()), peer.serverId, m, broken)
    {
      if peer.isConnected && peer.socket.Some? {
        var sendFailed := peer.serverId in broken;
        if sendFailed {
          HandlePeerDisconnect(peer.serverId);
        } else {
          Write(peer, packet, m);
        }
      }
    }

    /** The same, for a server that need not be a peer. */
    method SendToServer(p: int, packet: Packet, ghost m: Message, broken: set<int>)
      requires Valid() && packet == Encode(serverId, m)
      modifies users, rooms, conns.peers.Values, conns.all.Values`log
      ensures Valid()
      ensures State() == SendOne(old(State()), p, m, broken)
    {
      var peer := conns.GetPeerNode(p);
      if peer != null {
        SendTo(peer, packet, m, broken);
      }
    }

    method BroadcastS2S(packet: Packet, ghost m: Message, broken: set<int>)
      requires Valid() && packet == Encode(serverId, m)
      modifies users, rooms, conns.peers.Values, conns.all.Values`log
      ensures Valid()
      ensures State() == SendEach(old(State()), conns.order, m, broken)
    {
      var peers := conns.GetAllPeerNodes();
      assert State() == old(State());
      SendToEach(peers, packet, m, broken);
    }

    method SendToEach(peers: seq<ServerNode>, packet: Packet, ghost m: Message, broken: set<int>)
      requires Valid() && packet == Encode(serverId, m)
      requires |peers| == |conns.order|
      requires forall i | 0 <= i < |peers| :: conns.order[i] in conns.peers && peers[i] == conns.peers[conns.order[i]]
      modifies users, rooms, conns.peers.Values, conns.all.Values`log
      ensures Valid()
      ensures State() == SendEach(old(State()), conns.order, m, broken)
    {
      ghost var order := conns.order;
      for i := 0 to |peers|
        invariant Valid()
        invariant SendEach(State(), order[i..], m, broken) == SendEach(old(State()), order, m, broken)
      {
        SendTo(peers[i], packet, m, broken);
        assert order[i..][1..] == order[i + 1..];
      }
    }

    /** `ReplicateUserLogin` and `ReplicateUserLogout`. */
    method ReplicateUserChange(username: Text, online: bool, broken: set<int>)
      requires Valid()
      modifies users, rooms, conns.peers.Values, conns.all.Values`log
      ensures Valid()
      ensures State() == SendEach(old(State()), conns.order, ReplicateUser(username, serverId, online), broken)
    {
      var payload := Pack([username, Decimal.ToString(serverId), Flag(online)]);
      assert State() == old(State());
      BroadcastS2S(Packet(S2S_REPLICATE_USER, payload), ReplicateUser(username, serverId, online), broken);
    }

    /** `ReplicateRoomJoin` and `ReplicateRoomLeave`. */
    method ReplicateRoomChange(room: Text, active: bool, broken: set<int>)
      requires Valid()
      modifies users, rooms, conns.peers.Values, conns.all.Values`log
      ensures Valid()
      ensures State() == SendEach(old(State()), conns.order, RoomSync(room, serverId, active), broken)
    {
      var payload := Pack([room, Decimal.ToString(serverId), Flag(active)]);
      assert State() == old(State());
      BroadcastS2S(Packet(S2S_ROOM_MEMBER_SYNC, payload), RoomSync(room, serverId, active), broken);
    }

    method RouteBroadcastMessage(sender: Text, text: Text, broken: set<int>)
      requires Valid()
      modifies users, rooms, conns.peers.Values, conns.all.Values`log
      ensures Valid()
      ensures State() == SendEach(old(State()), conns.order, RouteBroadcast(sender, text), broken)
    {
      var s2sPayload := Pack([sender, text]);
      assert State() == old(State());
      BroadcastS2S(Packet(S2S_ROUTE_MSG, s2sPayload), RouteBroadcast(sender, text), broken);
    }

    method RoutePrivateMessage(sender: Text, receiver: Text, text: Text, target: int, broken: set<int>)
      requires Valid()
      modifies users, rooms, conns.peers.Values, conns.all.Values`log
      ensures Valid()
      ensures State() ==
              SendEach(old(State()), Select(conns.order, {target}), RoutePrivate(sender, receiver, text), broken)
    {
      SelectOne(conns.order, conns.peers.Keys, target);
      var payload := Pack([sender, receiver, text]);
      assert State() == old(State());
      SendToServer(target, Packet(S2S_ROUTE_MSG, payload), RoutePrivate(sender, receiver, text), broken);
    }

    /** The servers are visited in the order of the peer table. */
    method RouteRoomMessage(sender: Text, room: Text, text: Text, broken: set<int>)
      requires Valid()
      modifies users, rooms, conns.peers.Values, conns.all.Values`log
      ensures Valid()
      ensures State() ==
              SendEach(old(State()), Select(conns.order, old(rooms.GetRemoteServers(room))),
                       RouteRoom(sender, room, text), broken)
    {
      var remote := rooms.GetRemoteServers(room);
      var targets := Select(conns.order, remote);
      if targets == [] {
        return;
      }
      var payload := Pack([sender, room, text]);
      assert State() == old(State());
      for i := 0 to |targets|
        invariant Valid()
        invariant SendEach(State(), targets[i..], RouteRoom(sender, room, text), broken) ==
                  SendEach(old(State()), targets, RouteRoom(sender, room, text), broken)
      {
        SendToServer(targets[i], Packet(S2S_ROUTE_ROOM_MSG, payload), RouteRoom(sender, room, text), broken);
        assert targets[i..][1..] == targets[i + 1..];
      }
    }

    // Sessions.

    /** A new raw connection. */
    method Accept(handle: Handle) returns (session: ClientSession)
      requires Valid() && handle !in conns.all
      modifies conns
      ensures Valid() && fresh(session) && conns.Known(session) && session.handle == handle
      ensures State() == AcceptSession(old(State()), handle)
      ensures conns.peers == old(conns.peers)
    {
      session := new ClientSession(handle);
      conns.AddSession(session);
      assert Sessions() == old(Sessions())[handle := Session([], false, {}, [])];
      assert Names() == old(Names());
      assert Links() == old(Links());
      assert Queues() == old(Queues());
    }

    /** The name becomes the session's. */
    method Authenticate(session: ClientSession, username: Text)
      requires Valid() && conns.Known(session)
      modifies conns`byName, session`username, session`authenticated
      ensures Valid()
      ensures State() == old(State()).(
        sessions := old(Sessions())[session.handle :=
          old(Sessions())[session.handle].(name := username, authenticated := true)],
        byName := old(Names())[username := session.handle])
    {
      conns.AuthenticateSession(session, username);
      assert Names() == old(Names())[username := session.handle];
      assert Sessions() == old(Sessions())[session.handle :=
        old(Sessions())[session.handle].(name := username, authenticated := true)];
      assert Tables() == old(Tables());
    }

    method SetLocation(username: Text, location: int)
      requires Valid()
      modifies users
      ensures Valid()
      ensures State() == old(State()).(users := old(users.locations)[username := location])
    {
      users.RegisterUser(username, location);
      assert Connected() == old(Connected());
    }

    method Forget(username: Text)
      requires Valid()
      modifies users
      ensures Valid()
      ensures State() == old(State()).(users := old(users.locations) - {username})
    {
      users.UnregisterUser(username);
      assert Connected() == old(Connected());
    }

    method Enter(session: ClientSession, room: Text)
      requires Valid() && conns.Known(session)
      modifies session`joinedRooms
      ensures Valid()
      ensures State() == WithRooms(old(State()), session.handle, old(session.joinedRooms) + {room})
    {
      session.JoinRoom(room);
      assert Sessions() == WithRooms(old(State()), session.handle, old(session.joinedRooms) + {room}).sessions;
      assert Tables() == old(Tables());
    }

    method Exit(session: ClientSession, room: Text)
      requires Valid() && conns.Known(session)
      modifies session`joinedRooms
      ensures Valid()
      ensures State() == WithRooms(old(State()), session.handle, old(session.joinedRooms) - {room})
    {
      session.LeaveRoom(room);
      assert Sessions() == WithRooms(old(State()), session.handle, old(session.joinedRooms) - {room}).sessions;
      assert Tables() == old(Tables());
    }

    method AddMember(room: Text, username: Text)
      requires Valid()
      modifies rooms
      ensures Valid()
      ensures State() == JoinLocal(old(State()), room, username)
    {
      rooms.JoinRoomLocal(room, username);
      assert Connected() == old(Connected());
    }

    method DropMember(room: Text, username: Text)
      requires Valid()
      modifies rooms
      ensures Valid()
      ensures State() == LeaveLocal(old(State()), room, username)
    {
      rooms.LeaveRoomLocal(room, username);
      assert Connected() == old(Connected());
    }

    method AddServer(room: Text, server: int)
      requires Valid()
      modifies rooms
      ensures Valid()
      ensures State() == JoinRemote(old(State()), room, server)
    {
      rooms.JoinRoomRemote(room, server);
      assert Connected() == old(Connected());
    }

    method DropServer(room: Text, server: int)
      requires Valid()
      modifies rooms
      ensures Valid()
      ensures State() == LeaveRemote(old(State()), room, server)
    {
      rooms.LeaveRoomRemote(room, server);
      assert Connected() == old(Connected());
    }

    /** `RemoveSession` of the connection manager. */
    method Remove(session: ClientSession)
      requires Valid() && conns.Known(session)
      modifies conns`bySocket, conns`byName
      ensures Valid()
      ensures State() == RemoveSession(old(State()), session.handle)
    {
      conns.RemoveSession(session.handle);
      ghost var removed := RemoveSession(old(State()), session.handle);
      assert conns.bySocket.Keys == removed.live;
      assert Names() == removed.byName;
      assert Tables() == old(Tables());
    }

    // Packets of clients.

    method HandleLogin(session: ClientSession, payload: Text, broken: set<int>)
      requires Valid() && conns.Known(session)
      modifies users, rooms, conns`byName, conns.peers.Values, conns.all.Values
      ensures Valid()
      ensures State() == Nodes.HandleLogin(old(State()), session.handle, Trim(payload), broken)
    {
      var username := Trim(payload);
      if username == [] || NUL in username || SPACE in username {
        Tell(session, LoginResponse(false, InvalidName));
        return;
      }
      if users.IsUserOnline(username) {
        Tell(session, LoginResponse(false, AlreadyOnline));
        return;
      }
      AcceptLogin(session, username, broken);
    }

    method AcceptLogin(session: ClientSession, username: Text, broken: set<int>)
      requires Valid() && conns.Known(session)
      modifies users, rooms, conns`byName, conns.peers.Values, conns.all.Values
      ensures Valid()
      ensures State() ==
              Announce(SendEach(Post(Register(old(State()), session.handle, username), {session.handle},
                                     LoginResponse(true, Welcome)),
                                old(State()).peers, ReplicateUser(username, serverId, true), broken), {})
    {
      Admit(session, username);
      AnnounceLogin(session, username, broken);
    }

    method Admit(session: ClientSession, username: Text)
      requires Valid() && conns.Known(session)
      modifies users, conns`byName, session`username, session`authenticated
      ensures Valid()
      ensures State() == Register(old(State()), session.handle, username)
    {
      SetLocation(username, serverId);
      Authenticate(session, username);
    }

    method AnnounceLogin(session: ClientSession, username: Text, broken: set<int>)
      requires Valid() && conns.Known(session)
      modifies users, rooms, conns.peers.Values, conns.all.Values`log
      ensures Valid()
      ensures State() ==
              Announce(SendEach(Post(old(State()), {session.handle}, LoginResponse(true, Welcome)), conns.order,
                                ReplicateUser(username, serverId, true), broken), {})
    {
      Tell(session, LoginResponse(true, Welcome));
      ReplicateUserChange(username, true, broken);
      NotifyOnline({});
    }

    method HandlePrivateMsg(session: ClientSession, payload: Text, broken: set<int>)
      requires Valid() && conns.Known(session)
      modifies users, rooms, conns.peers.Values, conns.all.Values`log
      ensures Valid()
      ensures |Split(payload)| < 2 ==> State() == old(State())
      ensures |Split(payload)| >= 2 ==>
        State() == HandlePrivate(old(State()), session.handle, Split(payload)[0], Split(payload)[1], broken)
    {
      var fields := Unpack(payload);
      assert State() == old(State());
      if |fields| < 2 {
        return;
      }
      SendToUser(session, fields[0], fields[1], broken);
    }

    method SendToUser(session: ClientSession, receiver: Text, text: Text, broken: set<int>)
      requires Valid() && conns.Known(session)
      modifies users, rooms, conns.peers.Values, conns.all.Values`log
      ensures Valid()
      ensures State() == HandlePrivate(old(State()), session.handle, receiver, text, broken)
    {
      var sender := session.username;
      var location := users.GetUserLocation(receiver);
      if location == serverId {
        var target := conns.GetSessionByUsername(receiver);
        if target != null {
          Tell(target, PrivateMessage(sender, text));
          Tell(session, Status(DeliveredTo(receiver)));
        }
      } else if location > 0 {
        RoutePrivateMessage(sender, receiver, text, location, broken);
        Tell(session, Status(RoutedRemotely));
      } else {
        Tell(session, Status(UserOffline));
      }
    }

    method HandleRoomMsg(session: ClientSession, payload: Text, broken: set<int>)
      requires Valid() && conns.Known(session)
      modifies users, rooms, conns.peers.Values, conns.all.Values`log
      ensures Valid()
      ensures |Split(payload)| < 2 ==> State() == old(State())
      ensures |Split(payload)| >= 2 ==>
        State() == HandleRoomText(old(State()), session.handle, Split(payload)[0], Split(payload)[1], broken)
    {
      var fields := Unpack(payload);
      assert State() == old(State());
      if |fields| < 2 {
        return;
      }
      var room, text, sender := fields[0], fields[1], session.username;
      if !session.IsInRoom(room) {
        Tell(session, Status(JoinRoomFirst));
        return;
      }
      SendToRoom(sender, room, text, broken);
    }

    method SendToRoom(sender: Text, room: Text, text: Text, broken: set<int>)
      requires Valid()
      modifies users, rooms, conns.peers.Values, conns.all.Values`log
      ensures Valid()
      ensures State() ==
              SendEach(PostToNames(old(State()), old(State()).Local(room), RoomMessage(sender, room, text)),
                       Select(conns.order, old(State()).Remote(room)), RouteRoom(sender, room, text), broken)
    {
      var locals := rooms.GetLocalMembers(room);
      assert State() == old(State());
      TellNames(locals, RoomMessage(sender, room, text), rooms.Local(room));
      RouteRoomMessage(sender, room, text, broken);
    }

    method HandleBroadcastMsg(session: ClientSession, payload: Text, broken: set<int>)
      requires Valid() && conns.Known(session)
      modifies users, rooms, conns.peers.Values, conns.all.Values`log
      ensures Valid()
      ensures State() == HandleBroadcast(old(State()), session.handle, payload, broken)
    {
      var sender := session.username;
      assert State().Authenticated() - {} == State().Authenticated();
      TellAuthenticated(BroadcastMessage(sender, payload), {});
      RouteBroadcastMessage(sender, payload, broken);
    }

    method HandleRoomJoin(session: ClientSession, payload: Text, broken: set<int>)
      requires Valid() && conns.Known(session)
      modifies users, rooms, conns.peers.Values, conns.all.Values
      ensures Valid()
      ensures State() == HandleJoin(old(State()), session.handle, Trim(payload), broken)
    {
      var room := Trim(payload);
      if room == [] {
        return;
      }
      var isFirstLocalInRoom := LetIn(session, room);
      if isFirstLocalInRoom {
        ReplicateRoomChange(room, true, broken);
      }
    }

    method LetIn(session: ClientSession, room: Text) returns (first: bool)
      requires Valid() && conns.Known(session)
      modifies rooms, conns.all.Values
      ensures Valid()
      ensures first <==> old(State()).Local(room) == {}
      ensures var inside := WithRooms(old(State()), session.handle, old(session.joinedRooms) + {room});
              var joined := Post(JoinLocal(inside, room, old(session.username)), {session.handle},
                                 Status(Joined(room)));
              State() == PostToNames(joined, joined.Local(room), Status(Entered(old(session.username), room)))
    {
      first := TakeIn(session, room);
      AnnounceEntry(session, room);
    }

    method AnnounceEntry(session: ClientSession, room: Text)
      requires Valid() && conns.Known(session)
      modifies conns.all.Values`log
      ensures Valid()
      ensures var joined := Post(old(State()), {session.handle}, Status(Joined(room)));
              State() == PostToNames(joined, joined.Local(room), Status(Entered(session.username, room)))
    {
      Tell(session, Status(Joined(room)));
      var _ := TellRoom(room, Status(Entered(session.username, room)));
    }

    method TakeIn(session: ClientSession, room: Text) returns (first: bool)
      requires Valid() && conns.Known(session)
      modifies rooms, session`joinedRooms
      ensures Valid()
      ensures first <==> old(State()).Local(room) == {}
      ensures State() ==
              JoinLocal(WithRooms(old(State()), session.handle, old(session.joinedRooms) + {room}), room,
                        session.username)
    {
      Enter(session, room);
      ghost var inside := State();
      var members := rooms.GetLocalMembers(room);
      assert State() == inside;
      first := members == [];
      EmptyListing(members, rooms.Local(room));
      AddMember(room, session.username);
    }

    /** Those in a room, by the room's table. */
    method TellRoom(room: Text, m: ClientMessage) returns (empty: bool)
      requires Valid()
      modifies conns.all.Values`log
      ensures Valid()
      ensures empty <==> old(State()).Local(room) == {}
      ensures State() == PostToNames(old(State()), old(State()).Local(room), m)
    {
      var locals := rooms.GetLocalMembers(room);
      assert State() == old(State());
      EmptyListing(locals, rooms.Local(room));
      TellNames(locals, m, rooms.Local(room));
      empty := locals == [];
    }

    method HandleRoomLeave(session: ClientSession, payload: Text, broken: set<int>)
      requires Valid() && conns.Known(session)
      modifies users, rooms, conns.peers.Values, conns.all.Values
      ensures Valid()
      ensures State() == HandleLeave(old(State()), session.handle, Trim(payload), broken)
    {
      var room := Trim(payload);
      if room == [] || !session.IsInRoom(room) {
        return;
      }
      var empty := LetOut(session, room);
      if empty {
        ReplicateRoomChange(room, false, broken);
      }
    }

    method LetOut(session: ClientSession, room: Text) returns (empty: bool)
      requires Valid() && conns.Known(session)
      modifies rooms, conns.all.Values
      ensures Valid()
      ensures var outside := WithRooms(old(State()), session.handle, old(session.joinedRooms) - {room});
              var departed := Post(LeaveLocal(outside, room, old(session.username)), {session.handle},
                                   Status(Left(room)));
              (empty <==> departed.Local(room) == {}) &&
              State() == PostToNames(departed, departed.Local(room), Status(Departed(old(session.username), room)))
    {
      Exit(session, room);
      DropMember(room, session.username);
      empty := AnnounceExit(session, room);
    }

    method AnnounceExit(session: ClientSession, room: Text) returns (empty: bool)
      requires Valid() && conns.Known(session)
      modifies conns.all.Values`log
      ensures Valid()
      ensures empty <==> old(State()).Local(room) == {}
      ensures var departed := Post(old(State()), {session.handle}, Status(Left(room)));
              State() == PostToNames(departed, departed.Local(room), Status(Departed(session.username, room)))
    {
      Tell(session, Status(Left(room)));
      empty := TellRoom(room, Status(Departed(session.username, room)));
    }

    method HandleRoomCreate(session: ClientSession, payload: Text)
      requires Valid() && conns.Known(session)
      modifies session`log
      ensures Valid()
      ensures State() == HandleCreate(old(State()), session.handle, Trim(payload))
    {
      var room := Trim(payload);
      if room == [] {
        return;
      }
      Tell(session, Status(Created(room)));
    }

    method LinkTo(p: int, handle: Handle, now: nat)
      requires Valid()
      modifies conns.NodeOf(p)
      ensures Valid()
      ensures p in conns.peers ==> conns.peers[p].lastHeartbeat == now
      ensures State() == PeerUp(old(State()), p)
    {
      conns.RegisterPeerSocket(p, handle, now);
      assert Sessions() == old(Sessions());
      forall q | q in conns.peers && q != p ensures q in Links() <==> q in old(Links()) {
      }
      assert Links() == PeerUp(old(State()), p).up;
      assert Queues() == old(Queues());
    }

    /** The session becomes the link to a peer. */
    method HandleConnect(session: ClientSession, payload: Text, now: nat)
      requires Valid() && conns.Known(session)
      modifies conns`bySocket, conns`byName, conns.peers.Values
      ensures Valid()
      ensures forall p <- conns.peers | Decimal.Stoi(payload) == Some(p) :: conns.peers[p].lastHeartbeat == now
      ensures State() ==
              match Decimal.Stoi(payload)
              case Some(p) => Promote(old(State()), session.handle, p)
              case None => old(State())
    {
      match Decimal.Stoi(payload)
      case None =>
      case Some(p) =>
        Remove(session);
        LinkTo(p, session.handle, now);
    }

    /** One peer's turn in `PeerConnectorLoop`; `socket` is what connecting gave. The
        packet is the introduction sent over a new link. */
    method ConnectTo(p: int, socket: Option<Handle>, now: nat) returns (hello: Option<Packet>)
      requires Valid()
      modifies conns.peers.Values
      ensures Valid()
      ensures State() == if socket.Some? then PeerUp(old(State()), p) else old(State())
      ensures hello == if socket.Some? && p in old(Queues()) && p !in old(Links())
                       then Some(Packet(S2S_CONNECT, Decimal.ToString(serverId))) else None
    {
      hello := None;
      if p in Links() || p !in Queues() {
        AlreadyUp(State(), p);
      }
      var peer := conns.GetPeerNode(p);
      if peer != null && !peer.isConnected && socket.Some? {
        LinkTo(p, socket.value, now);
        hello := Some(Packet(S2S_CONNECT, Decimal.ToString(serverId)));
      }
    }

    method HandleClientPacket(session: ClientSession, packet: Packet, broken: set<int>, now: nat)
      requires Valid() && conns.Known(session)
      modifies users, rooms, conns`bySocket, conns`byName, conns.peers.Values, conns.all.Values
      ensures Valid()
      ensures State() == HandleRequest(old(State()), session.handle, ParseRequest(packet), broken)
    {
      Dispatched(State(), session.handle, packet, broken);
      if !session.authenticated && packet.kind != LOGIN && packet.kind != S2S_CONNECT {
        Tell(session, LoginResponse(false, AuthenticationRequired));
        return;
      }
      DispatchPacket(session, packet, broken, now);
    }

    method DispatchPacket(session: ClientSession, packet: Packet, broken: set<int>, now: nat)
      requires Valid() && conns.Known(session)
      modifies users, rooms, conns`bySocket, conns`byName, conns.peers.Values, conns.all.Values
      ensures Valid()
      ensures State() == Dispatch(old(State()), session.handle, packet, broken)
    {
      if packet.kind == LOGIN {
        HandleLogin(session, packet.payload, broken);
      } else if packet.kind == MSG_PRIVATE {
        HandlePrivateMsg(session, packet.payload, broken);
      } else if packet.kind == MSG_ROOM {
        HandleRoomMsg(session, packet.payload, broken);
      } else if packet.kind == MSG_BROADCAST {
        HandleBroadcastMsg(session, packet.payload, broken);
      } else if packet.kind == ROOM_JOIN {
        HandleRoomJoin(session, packet.payload, broken);
      } else if packet.kind == ROOM_LEAVE {
        HandleRoomLeave(session, packet.payload, broken);
      } else if packet.kind == ROOM_CREATE {
        HandleRoomCreate(session, packet.payload);
      } else if packet.kind == S2S_CONNECT {
        HandleConnect(session, packet.payload, now);
      }
    }

    /** The branch of `ListenerLoop` for a session that has closed or sent what is no frame. */
    method HandleDisconnect(session: ClientSession, broken: set<int>)
      requires Valid() && conns.Known(session)
      modifies users, rooms, conns`bySocket, conns`byName, conns.peers.Values, conns.all.Values`log
      ensures Valid()
      ensures State() == Hangup(old(State()), session.handle, broken)
    {
      var username := session.username;
      if username != [] {
        Forget(username);
        ReplicateUserChange(username, false, broken);
        NotifyOnline({session.handle});
      }
      Remove(session);
    }

    // Packets of servers.

    method HandleS2SHeartbeat(node: ServerNode)
      requires Valid() && node.serverId in conns.peers && conns.peers[node.serverId] == node
      modifies node`outbox
      ensures Valid()
      ensures State() == Receive(old(State()), node.serverId, Heartbeat)
    {
      if node.socket.Some? {
        Write(node, Packet(S2S_HEARTBEAT_ACK, Decimal.ToString(serverId)), HeartbeatAck);
      }
    }

    method HandleS2SReplicateUser(node: ServerNode, payload: Text)
      requires Valid()
      modifies users, conns.all.Values`log
      ensures Valid()
      ensures State() == Receive(old(State()), node.serverId, Decode(Packet(S2S_REPLICATE_USER, payload)))
    {
      var fields := Unpack(payload);
      assert State() == old(State());
      if |fields| < 3 || Decimal.Stoi(fields[1]).None? {
        return;
      }
      var username, location, online := fields[0], Decimal.Stoi(fields[1]).value, fields[2] == ONE;
      if online {
        SetLocation(username, location);
      } else {
        Forget(username);
      }
      NotifyOnline({});
    }

    method HandleS2SRouteMsg(node: ServerNode, payload: Text)
      requires Valid()
      modifies conns.all.Values`log
      ensures Valid()
      ensures State() == Receive(old(State()), node.serverId, Decode(Packet(S2S_ROUTE_MSG, payload)))
    {
      ChatDecoded(payload);
      var fields := Unpack(payload);
      assert State() == old(State());
      if |fields| == 3 {
        var session := conns.GetSessionByUsername(fields[1]);
        if session != null {
          Tell(session, PrivateMessage(fields[0], fields[2]));
        }
      } else if |fields| == 2 {
        assert State().Authenticated() - {} == State().Authenticated();
        TellAuthenticated(BroadcastMessage(fields[0], fields[1]), {});
      }
    }

    method HandleS2SRouteRoomMsg(node: ServerNode, payload: Text)
      requires Valid()
      modifies conns.all.Values`log
      ensures Valid()
      ensures State() == Receive(old(State()), node.serverId, Decode(Packet(S2S_ROUTE_ROOM_MSG, payload)))
    {
      ChatDecoded(payload);
      var fields := Unpack(payload);
      assert State() == old(State());
      if |fields| >= 3 {
        var _ := TellRoom(fields[1], RoomMessage(fields[0], fields[1], fields[2]));
      }
    }

    method HandleS2SRoomMemberSync(node: ServerNode, payload: Text)
      requires Valid()
      modifies rooms
      ensures Valid()
      ensures State() == Receive(old(State()), node.serverId, Decode(Packet(S2S_ROOM_MEMBER_SYNC, payload)))
    {
      var fields := Unpack(payload);
      assert State() == old(State());
      if |fields| < 3 || Decimal.Stoi(fields[1]).None? {
        return;
      }
      var room, peerServerId, active := fields[0], Decimal.Stoi(fields[1]).value, fields[2] == ONE;
      if active {
        AddServer(room, peerServerId);
      } else {
        DropServer(room, peerServerId);
      }
    }

    method HandleServerPacket(node: ServerNode, packet: Packet, now: nat)
      requires Valid() && node.serverId in conns.peers && conns.peers[node.serverId] == node
      modifies users, rooms, node`lastHeartbeat, node`outbox, conns.all.Values`log
      ensures Valid()
      ensures node.lastHeartbeat == now
      ensures State() == Receive(old(State()), node.serverId, Decode(packet))
    {
      node.UpdateHeartbeat(now);
      assert State() == old(State());
      if packet.kind == S2S_HEARTBEAT {
        HandleS2SHeartbeat(node);
      } else if packet.kind == S2S_REPLICATE_USER {
        HandleS2SReplicateUser(node, packet.payload);
      } else if packet.kind == S2S_ROUTE_MSG {
        HandleS2SRouteMsg(node, packet.payload);
      } else if packet.kind == S2S_ROUTE_ROOM_MSG {
        HandleS2SRouteRoomMsg(node, packet.payload);
      } else if packet.kind == S2S_ROOM_MEMBER_SYNC {
        HandleS2SRoomMemberSync(node, packet.payload);
      }
    }
  }
}
