/** What every session is told, message by message, when a server handles a request, a
    disconnect or a packet while its own sends succeed. */
module Replies {
  import opened Bytes
  import opened Fields
  import opened Frames
  import opened Messages
  import opened Nodes
  import opened NodeFacts
  import Decimal

  /** Everything that session `g` has been sent. */
  function Log(n: Node, g: Handle): seq<ClientMessage>
    requires g in n.sessions
  {
    n.sessions[g].log
  }

  lemma PostLog(n: Node, to: set<Handle>, m: ClientMessage, g: Handle)
    requires g in n.sessions
    ensures g in Post(n, to, m).sessions
    ensures Log(Post(n, to, m), g) == Log(n, g) + if g in to then [m] else []
  {
  }

  lemma PostToNamesLog(n: Node, names: set<Text>, m: ClientMessage, g: Handle)
    requires g in n.sessions
    ensures g in PostToNames(n, names, m).sessions
    ensures Log(PostToNames(n, names, m), g) == Log(n, g) + Copies(m, |NamesOf(n, names, g)|)
  {
  }

  /** Sends that succeed change nothing but what is under way. */
  lemma {:induction false} SendEachTellsNobody(n: Node, ps: seq<int>, m: Message)
    ensures var k := SendEach(n, ps, m, {}); k == n.(out := k.out)
    decreases |ps|
  {
    if ps != [] {
      SendEachTellsNobody(SendOne(n, ps[0], m, {}), ps[1..], m);
    }
  }

  // Requests.

  /** The packet types of clients, by number; 100 introduces a server. */
  lemma RequestTypes(kind: Byte, payload: Text)
    ensures var fields := Split(payload);
            ParseRequest(Packet(kind, payload)) ==
            if kind == 1 then Login(Trim(payload))
            else if kind == 3 && |fields| >= 2 then Private(fields[0], fields[1])
            else if kind == 4 && |fields| >= 2 then RoomText(fields[0], fields[1])
            else if kind == 5 then Broadcast(payload)
            else if kind == 6 then Join(Trim(payload))
            else if kind == 7 then Leave(Trim(payload))
            else if kind == 8 then Create(Trim(payload))
            else if kind == 100 then Connect(Decimal.Stoi(payload))
            else Dropped
  {
  }

  /** A name that a session can take: not empty, without NUL byte or space, and free. */
  predicate Acceptable(n: Node, name: Text) {
    name != [] && 0 !in name && 32 !in name && name !in n.users
  }

  /** The answer to a login goes to the one who asked: no for a name that is empty or
      contains a NUL byte or a space, no for a name in the directory, yes otherwise. */
  function LoginAnswer(n: Node, name: Text): ClientMessage {
    if name == [] || 0 in name || 32 in name then LoginResponse(false, InvalidName)
    else if name in n.users then LoginResponse(false, AlreadyOnline)
    else LoginResponse(true, Welcome)
  }

  lemma LoginReplies(n: Node, h: Handle, name: Text, g: Handle)
    requires h in n.sessions && g in n.sessions
    ensures var k := HandleRequest(n, h, Login(name), {});
            g in k.sessions &&
            Log(k, g) == Log(n, g) + (if g == h then [LoginAnswer(n, name)] else []) +
                         if Acceptable(n, name) && g in n.live && (g == h || n.sessions[g].authenticated)
                         then [Presence(n.users.Keys + {name})] else []
  {
    if ValidName(name) && name !in n.users {
      var r := Register(n, h, name);
      var welcomed := Post(r, {h}, LoginResponse(true, Welcome));
      PostLog(r, {h}, LoginResponse(true, Welcome), g);
      SendEachTellsNobody(welcomed, n.peers, ReplicateUser(name, n.id, true));
      var told := SendEach(welcomed, n.peers, ReplicateUser(name, n.id, true), {});
      assert told.users.Keys == n.users.Keys + {name};
      PostLog(told, told.Authenticated() - {}, Presence(told.users.Keys), g);
    } else {
      PostLog(n, {h}, LoginAnswer(n, name), g);
    }
  }

  /** A login is accepted, and welcomed as such, if and only if the name is acceptable;
      then the session has it, and otherwise nothing has changed but the one answer. */
  lemma LoginAccepted(n: Node, h: Handle, name: Text)
    requires h in n.sessions
    ensures var k := HandleRequest(n, h, Login(name), {});
            h in k.sessions &&
            (LoginAnswer(n, name) == LoginResponse(true, Welcome) <==> Acceptable(n, name)) &&
            (Acceptable(n, name) ==>
               k.sessions[h].authenticated && k.sessions[h].name == name &&
               k.users == n.users[name := n.id] && k.byName == n.byName[name := h]) &&
            (!Acceptable(n, name) ==> Core(k) == Core(n) && k.out == n.out)
  {
    if ValidName(name) && name !in n.users {
      var r := Register(n, h, name);
      var welcomed := Post(r, {h}, LoginResponse(true, Welcome));
      SendEachTellsNobody(welcomed, n.peers, ReplicateUser(name, n.id, true));
    } else {
      CorePost(n, {h}, LoginAnswer(n, name));
    }
  }

  /** What the sender of a private message is told: that it was delivered, if and only if
      the directory places the receiver here and the name leads to a session; that it was
      routed, if and only if on another server with a positive id; that the user is
      offline, if nowhere or on a server without one. */
  function PrivateAnswer(n: Node, u: Text): seq<ClientMessage> {
    if u !in n.users || (n.users[u] != n.id && n.users[u] <= 0) then [Status(UserOffline)]
    else if n.users[u] != n.id then [Status(RoutedRemotely)]
    else if u in n.byName then [Status(DeliveredTo(u))]
    else []
  }

  /** The sender alone is answered, and the receiver alone has the message, if here. */
  lemma PrivateReplies(n: Node, h: Handle, u: Text, text: Text, g: Handle)
    requires 0 < n.id && h in n.sessions && g in n.sessions && n.sessions[h].authenticated
    ensures var k := HandleRequest(n, h, Private(u, text), {});
            g in k.sessions &&
            Log(k, g) == Log(n, g) +
                         (if n.Location(u) == Some(n.id) && u in n.byName && n.byName[u] == g
                          then [PrivateMessage(n.sessions[h].name, text)] else []) +
                         if g == h then PrivateAnswer(n, u) else []
  {
    var copy := PrivateMessage(n.sessions[h].name, text);
    if n.Location(u) == Some(n.id) {
      if u in n.byName {
        PostLog(n, {n.byName[u]}, copy, g);
        PostLog(Post(n, {n.byName[u]}, copy), {h}, Status(DeliveredTo(u)), g);
      }
    } else if u in n.users && n.users[u] > 0 {
      var m := RoutePrivate(n.sessions[h].name, u, text);
      var ps := Select(n.peers, {n.users[u]});
      SendEachTellsNobody(n, ps, m);
      PostLog(SendEach(n, ps, m, {}), {h}, Status(RoutedRemotely), g);
    } else {
      PostLog(n, {h}, Status(UserOffline), g);
    }
  }

  /** A room message goes to the sessions of the room's local members, once for each name;
      who is not in the room is told so and reaches nobody. */
  lemma RoomReplies(n: Node, h: Handle, room: Text, text: Text, g: Handle)
    requires h in n.sessions && g in n.sessions && n.sessions[h].authenticated
    ensures var k := HandleRequest(n, h, RoomText(room, text), {});
            g in k.sessions &&
            Log(k, g) == Log(n, g) +
                         if room in n.sessions[h].rooms
                         then Copies(RoomMessage(n.sessions[h].name, room, text), |NamesOf(n, n.Local(room), g)|)
                         else if g == h then [Status(JoinRoomFirst)] else []
  {
    if room in n.sessions[h].rooms {
      var m := RoomMessage(n.sessions[h].name, room, text);
      PostToNamesLog(n, n.Local(room), m, g);
      SendEachTellsNobody(PostToNames(n, n.Local(room), m), Select(n.peers, n.Remote(room)),
                          RouteRoom(n.sessions[h].name, room, text));
    } else {
      PostLog(n, {h}, Status(JoinRoomFirst), g);
    }
  }

  /** A broadcast goes to every session that is connected and logged in, once. */
  lemma BroadcastReplies(n: Node, h: Handle, text: Text, g: Handle)
    requires h in n.sessions && g in n.sessions && n.sessions[h].authenticated
    ensures var k := HandleRequest(n, h, Broadcast(text), {});
            g in k.sessions &&
            Log(k, g) == Log(n, g) + if g in n.live && n.sessions[g].authenticated
                                     then [BroadcastMessage(n.sessions[h].name, text)] else []
  {
    var m := BroadcastMessage(n.sessions[h].name, text);
    PostLog(n, n.Authenticated(), m, g);
    SendEachTellsNobody(Post(n, n.Authenticated(), m), n.peers, RouteBroadcast(n.sessions[h].name, text));
  }

  /** Who joins is told so; then everybody in the room, the newcomer included, is told who
      has entered, once for each name. Without a room name nothing happens. */
  lemma JoinReplies(n: Node, h: Handle, room: Text, g: Handle)
    requires h in n.sessions && g in n.sessions && n.sessions[h].authenticated
    ensures var k := HandleRequest(n, h, Join(room), {});
            var user := n.sessions[h].name;
            g in k.sessions &&
            Log(k, g) == if room == [] then Log(n, g)
                         else Log(n, g) + (if g == h then [Status(Joined(room))] else []) +
                              Copies(Status(Entered(user, room)), |NamesOf(n, n.Local(room) + {user}, g)|)
  {
    if room != [] {
      var user := n.sessions[h].name;
      var inside := n.(sessions := n.sessions[h := n.sessions[h].(rooms := n.sessions[h].rooms + {room})]);
      var entered := JoinLocal(inside, room, user);
      var joined := Post(entered, {h}, Status(Joined(room)));
      PostLog(entered, {h}, Status(Joined(room)), g);
      PostToNamesLog(joined, joined.Local(room), Status(Entered(user, room)), g);
      assert NamesOf(joined, joined.Local(room), g) == NamesOf(n, n.Local(room) + {user}, g);
      var told := PostToNames(joined, joined.Local(room), Status(Entered(user, room)));
      SendEachTellsNobody(told, n.peers, RoomSync(room, n.id, true));
    }
  }

  /** Who leaves is told so; then everybody left in the room is told who has left. Who is
      not in the room is told nothing. */
  lemma LeaveReplies(n: Node, h: Handle, room: Text, g: Handle)
    requires h in n.sessions && g in n.sessions && n.sessions[h].authenticated
    ensures var k := HandleRequest(n, h, Leave(room), {});
            var user := n.sessions[h].name;
            g in k.sessions &&
            Log(k, g) == if room == [] || room !in n.sessions[h].rooms then Log(n, g)
                         else Log(n, g) + (if g == h then [Status(Left(room))] else []) +
                              Copies(Status(Departed(user, room)), |NamesOf(n, n.Local(room) - {user}, g)|)
  {
    if room != [] && room in n.sessions[h].rooms {
      var user := n.sessions[h].name;
      var outside := n.(sessions := n.sessions[h := n.sessions[h].(rooms := n.sessions[h].rooms - {room})]);
      var gone := LeaveLocal(outside, room, user);
      var departed := Post(gone, {h}, Status(Left(room)));
      PostLog(gone, {h}, Status(Left(room)), g);
      PostToNamesLog(departed, departed.Local(room), Status(Departed(user, room)), g);
      assert NamesOf(departed, departed.Local(room), g) == NamesOf(n, n.Local(room) - {user}, g);
      var told := PostToNames(departed, departed.Local(room), Status(Departed(user, room)));
      SendEachTellsNobody(told, n.peers, RoomSync(room, n.id, false));
    }
  }

  /** Creating a room is answered and changes nothing. */
  lemma CreateReplies(n: Node, h: Handle, room: Text, g: Handle)
    requires h in n.sessions && g in n.sessions && n.sessions[h].authenticated
    ensures var k := HandleRequest(n, h, Create(room), {});
            g in k.sessions && Core(k) == Core(n) && k.out == n.out &&
            Log(k, g) == Log(n, g) + if g == h && room != [] then [Status(Created(room))] else []
  {
    PostLog(n, {h}, Status(Created(room)), g);
    CorePost(n, {h}, Status(Created(room)));
  }

  /** Whatever a session that has not logged in asks for but to log in or to become a
      link: it is refused, and nothing else happens. */
  lemma StrangerReplies(n: Node, h: Handle, q: Request, broken: set<int>, g: Handle)
    requires h in n.sessions && g in n.sessions && !n.sessions[h].authenticated && !q.Login? && !q.Connect?
    ensures var k := HandleRequest(n, h, q, broken);
            g in k.sessions && Core(k) == Core(n) && k.out == n.out &&
            Log(k, g) == Log(n, g) + if g == h then [LoginResponse(false, AuthenticationRequired)] else []
  {
    PostLog(n, {h}, LoginResponse(false, AuthenticationRequired), g);
    CorePost(n, {h}, LoginResponse(false, AuthenticationRequired));
  }

  /** What is no request, or an introduction without a number, does nothing. */
  lemma DroppedReplies(n: Node, h: Handle, q: Request, broken: set<int>)
    requires h in n.sessions && (q == Connect(None) || (q == Dropped && n.sessions[h].authenticated))
    ensures HandleRequest(n, h, q, broken) == n
  {
  }

  /** When a user hangs up, everybody else who is logged in is told who is left. */
  lemma HangupReplies(n: Node, h: Handle, g: Handle)
    requires h in n.sessions && g in n.sessions
    ensures var k := Hangup(n, h, {});
            var user := n.sessions[h].name;
            g in k.sessions &&
            Log(k, g) == Log(n, g) + if user != [] && g != h && g in n.live && n.sessions[g].authenticated
                                     then [Presence(n.users.Keys - {user})] else []
  {
    var user := n.sessions[h].name;
    if user != [] {
      var less := n.(users := n.users - {user});
      SendEachTellsNobody(less, n.peers, ReplicateUser(user, n.id, false));
      var gone := SendEach(less, n.peers, ReplicateUser(user, n.id, false), {});
      assert gone.users.Keys == n.users.Keys - {user};
      PostLog(gone, gone.Authenticated() - {h}, Presence(gone.users.Keys), g);
    }
  }

  // Links and packets of peers.

  /** When a link is lost, everybody who is logged in is told who is left. */
  lemma PeerDownReplies(n: Node, p: int, g: Handle)
    requires g in n.sessions
    ensures var k := PeerDown(n, p);
            g in k.sessions &&
            Log(k, g) == Log(n, g) + if p in n.up && g in n.live && n.sessions[g].authenticated
                                     then [Presence(set u | u in n.users && n.users[u] != p)] else []
  {
    if p in n.up {
      var cut := Cut(n, p);
      assert cut.users.Keys == set u | u in n.users && n.users[u] != p;
      PostLog(cut, cut.Authenticated() - {}, Presence(cut.users.Keys), g);
    }
  }

  /** With the link goes what was under way on it and all that was heard over it: the
      users placed on the peer and its place in the rooms. All else stays. */
  lemma PeerDownForgets(n: Node, p: int, u: Text, room: Text, t: int)
    requires p in n.up
    ensures var k := PeerDown(n, p);
            k.up == n.up - {p} && k.live == n.live && k.byName == n.byName &&
            k.Queue(t) == (if t == p then [] else n.Queue(t)) &&
            k.Location(u) == (if n.Location(u) == Some(p) then None else n.Location(u)) &&
            k.Remote(room) == n.Remote(room) - {p} && k.Local(room) == n.Local(room)
  {
  }

  /** Losing a link that is down is nothing. */
  lemma PeerDownTwice(n: Node, p: int)
    requires p !in n.up
    ensures PeerDown(n, p) == n
  {
  }

  /** News of a user is passed on to everybody who is logged in, as the list of all users
      the server now knows of, on whatever server. */
  lemma NewsReplies(n: Node, p: int, u: Text, s: int, online: bool, g: Handle)
    requires g in n.sessions
    ensures var k := Receive(n, p, ReplicateUser(u, s, online));
            g in k.sessions &&
            Log(k, g) == Log(n, g) + if g in n.live && n.sessions[g].authenticated
                                     then [Presence(if online then n.users.Keys + {u} else n.users.Keys - {u})] else []
  {
    var told := n.(users := if online then n.users[u := s] else n.users - {u});
    assert told.users.Keys == if online then n.users.Keys + {u} else n.users.Keys - {u};
    PostLog(told, told.Authenticated() - {}, Presence(told.users.Keys), g);
  }

  /** What the chat packets of peers are turned into; the rest tells clients nothing. */
  lemma PacketReplies(n: Node, p: int, m: Message, g: Handle)
    requires g in n.sessions && !m.ReplicateUser?
    ensures var k := Receive(n, p, m);
            g in k.sessions &&
            Log(k, g) == Log(n, g) +
                         match m
                         case RoutePrivate(a, u, x) =>
                           if u in n.byName && n.byName[u] == g then [PrivateMessage(a, x)] else []
                         case RouteBroadcast(a, x) =>
                           if g in n.live && n.sessions[g].authenticated then [BroadcastMessage(a, x)] else []
                         case RouteRoom(a, r, x) => Copies(RoomMessage(a, r, x), |NamesOf(n, n.Local(r), g)|)
                         case _ => []
  {
    match m
    case RoutePrivate(a, u, x) => if u in n.byName { PostLog(n, {n.byName[u]}, PrivateMessage(a, x), g); }
    case RouteBroadcast(a, x) => PostLog(n, n.Authenticated(), BroadcastMessage(a, x), g);
    case RouteRoom(a, r, x) => PostToNamesLog(n, n.Local(r), RoomMessage(a, r, x), g);
    case _ =>
  }

  /** A ping is answered on the link it came from, if that is still up. */
  lemma PingAnswered(n: Node, p: int, t: int)
    ensures Receive(n, p, Heartbeat).Queue(t) ==
            n.Queue(t) + if t == p && p in n.up then [HeartbeatAck] else []
  {
    SendableArrives(n.id, HeartbeatAck);
  }

  /** A tick pings a peer that is connected, and no other. */
  lemma PingSent(n: Node, p: int, t: int)
    ensures Ping(n, p).Queue(t) == n.Queue(t) + if t == p && p in n.up then [Heartbeat] else []
  {
    SendableArrives(n.id, Heartbeat);
  }

  // A session that becomes a link.

  /** It is no client any more: its handle and its name are gone from the indexes, all
      other handles stay, and the peer is connected if it is a configured one. */
  lemma PromotedIsGone(n: Node, h: Handle, p: int, broken: set<int>)
    requires h in n.live && h in n.sessions
    ensures var k := HandleRequest(n, h, Connect(Some(p)), broken);
            k.live == n.live - {h} && k.sessions == n.sessions && k.users == n.users && k.rooms == n.rooms &&
            k.byName == (if n.sessions[h].name == [] then n.byName else n.byName - {n.sessions[h].name}) &&
            (forall x :: x in k.up <==> x in n.up || (x == p && p in n.out)) && k.out == n.out
  {
  }
}
