/** The state of one server as a value, and what each handler does to it. Messages
    to clients are the calls of `SendPacket`; messages to peers are read back the
    way the receiving server will parse them. */
module Nodes {
  import opened Bytes
  import opened Fields
  import opened Frames
  import opened Messages
  import Decimal

  /** A session is known by its socket handle; a handle is not used twice. */
  type Handle = nat

  datatype LoginNote = InvalidName | AlreadyOnline | AuthenticationRequired | Welcome

  datatype Notice =
    | DeliveredTo(user: Text)
    | RoutedRemotely
    | UserOffline
    | JoinRoomFirst
    | Joined(room: Text)
    | Left(room: Text)
    | Entered(user: Text, room: Text)
    | Departed(user: Text, room: Text)
    | Created(room: Text)

  /** What a client is sent. The order in which a presence list names the users is
      left open. */
  datatype ClientMessage =
    | LoginResponse(accepted: bool, note: LoginNote)
    | PrivateMessage(sender: Text, text: Text)
    | RoomMessage(sender: Text, room: Text, text: Text)
    | BroadcastMessage(sender: Text, text: Text)
    | Status(notice: Notice)
    | Presence(online: set<Text>)

  /** What a client asks for, once its packet has been taken apart. */
  datatype Request =
    | Login(name: Text)
    | Private(receiver: Text, text: Text)
    | RoomText(room: Text, text: Text)
    | Broadcast(text: Text)
    | Join(room: Text)
    | Leave(room: Text)
    | Create(room: Text)
    | Connect(peer: Option<int>)
    | Dropped

  datatype Session = Session(name: Text, authenticated: bool, rooms: set<Text>, log: seq<ClientMessage>)

  datatype Room = Room(local: set<Text>, remote: set<int>)

  /** `sessions` holds every session object, `live` the handles in the socket index,
      `out` what is under way to each peer. */
  datatype Node = Node(
    id: int,
    peers: seq<int>,
    users: map<Text, int>,
    rooms: map<Text, Room>,
    sessions: map<Handle, Session>,
    live: set<Handle>,
    byName: map<Text, Handle>,
    up: set<int>,
    out: map<int, seq<Message>>)
  {
    function Local(room: Text): set<Text> {
      if room in rooms then rooms[room].local else {}
    }

    function Remote(room: Text): set<int> {
      if room in rooms then rooms[room].remote else {}
    }

    function Queue(p: int): seq<Message> {
      if p in out then out[p] else []
    }

    function Location(user: Text): Option<int> {
      if user in users then Some(users[user]) else None
    }

    function Authenticated(): set<Handle> {
      set h | h in live && h in sessions && sessions[h].authenticated
    }
  }

  // Packet types of clients.

  const LOGIN: Byte := 1
  const MSG_PRIVATE: Byte := 3
  const MSG_ROOM: Byte := 4
  const MSG_BROADCAST: Byte := 5
  const ROOM_JOIN: Byte := 6
  const ROOM_LEAVE: Byte := 7
  const ROOM_CREATE: Byte := 8

  function ParseRequest(p: Packet): Request {
    var fields := Split(p.payload);
    if p.kind == LOGIN then Login(Trim(p.payload))
    else if p.kind == MSG_PRIVATE then if |fields| < 2 then Dropped else Private(fields[0], fields[1])
    else if p.kind == MSG_ROOM then if |fields| < 2 then Dropped else RoomText(fields[0], fields[1])
    else if p.kind == MSG_BROADCAST then Broadcast(p.payload)
    else if p.kind == ROOM_JOIN then Join(Trim(p.payload))
    else if p.kind == ROOM_LEAVE then Leave(Trim(p.payload))
    else if p.kind == ROOM_CREATE then Create(Trim(p.payload))
    else if p.kind == S2S_CONNECT then Connect(Decimal.Stoi(p.payload))
    else Dropped
  }

  // Messages to clients.

  function Post(n: Node, to: set<Handle>, m: ClientMessage): Node {
    n.(sessions := map h | h in n.sessions ::
         if h in to then n.sessions[h].(log := n.sessions[h].log + [m]) else n.sessions[h])
  }

  /** The names among `names` under which session `h` is registered. */
  function NamesOf(n: Node, names: set<Text>, h: Handle): set<Text> {
    set u | u in names && u in n.byName && n.byName[u] == h
  }

  /** One copy for every name: a session registered under two of them gets two. */
  function PostToNames(n: Node, names: set<Text>, m: ClientMessage): Node {
    n.(sessions := map h | h in n.sessions ::
         n.sessions[h].(log := n.sessions[h].log + Copies(m, |NamesOf(n, names, h)|)))
  }

  function Copies(m: ClientMessage, k: nat): seq<ClientMessage> {
    seq(k, _ => m)
  }

  function Announce(n: Node, except: set<Handle>): Node {
    Post(n, n.Authenticated() - except, Presence(n.users.Keys))
  }

  // Messages to peers.

  function Send(n: Node, p: int, m: Message): Node {
    n.(out := n.out[p := n.Queue(p) + [Wire(n.id, m)]])
  }

  /** Without the link to `p`, what was under way on it, and what `p` had told. */
  function Cut(n: Node, p: int): Node {
    n.(up := n.up - {p},
       out := n.out[p := []],
       users := map u | u in n.users && n.users[u] != p :: n.users[u],
       rooms := map r | r in n.rooms :: n.rooms[r].(remote := n.rooms[r].remote - {p}))
  }

  /** `HandlePeerDisconnect`. */
  function PeerDown(n: Node, p: int): Node {
    if p !in n.up then n else Announce(Cut(n, p), {})
  }

  /** The send loops over peers: an unconnected peer is passed over, a send that
      fails takes the link down. `broken` are the peers whose sockets fail. */
  function SendEach(n: Node, ps: seq<int>, m: Message, broken: set<int>): (r: Node)
    ensures r.sessions.Keys == n.sessions.Keys
    decreases |ps|
  {
    if ps == [] then n else SendEach(SendOne(n, ps[0], m, broken), ps[1..], m, broken)
  }

  function SendOne(n: Node, p: int, m: Message, broken: set<int>): Node {
    if p !in n.up then n else if p in broken then PeerDown(n, p) else Send(n, p, m)
  }

  /** The peers of a set, in configuration order. */
  function Select(ps: seq<int>, s: set<int>): seq<int> {
    if ps == [] then [] else (if ps[0] in s then [ps[0]] else []) + Select(ps[1..], s)
  }

  // Room tables.

  function JoinLocal(n: Node, room: Text, user: Text): Node {
    n.(rooms := n.rooms[room := Room(n.Local(room) + {user}, n.Remote(room))])
  }

  function LeaveLocal(n: Node, room: Text, user: Text): Node {
    if room in n.rooms then n.(rooms := n.rooms[room := Room(n.Local(room) - {user}, n.Remote(room))]) else n
  }

  function JoinRemote(n: Node, room: Text, server: int): Node {
    n.(rooms := n.rooms[room := Room(n.Local(room), n.Remote(room) + {server})])
  }

  function LeaveRemote(n: Node, room: Text, server: int): Node {
    if room in n.rooms then n.(rooms := n.rooms[room := Room(n.Local(room), n.Remote(room) - {server})]) else n
  }

  // Client handlers.

  predicate ValidName(name: Text) {
    name != [] && NulFree(name) && SPACE !in name
  }

  /** `RegisterUser` and `AuthenticateSession`. */
  function Register(n: Node, h: Handle, name: Text): Node
    requires h in n.sessions
  {
    n.(users := n.users[name := n.id],
       sessions := n.sessions[h := n.sessions[h].(name := name, authenticated := true)],
       byName := n.byName[name := h])
  }

  function HandleLogin(n: Node, h: Handle, name: Text, broken: set<int>): Node
    requires h in n.sessions
  {
    if !ValidName(name) then Post(n, {h}, LoginResponse(false, InvalidName))
    else if name in n.users then Post(n, {h}, LoginResponse(false, AlreadyOnline))
    else
      var registered := Post(Register(n, h, name), {h}, LoginResponse(true, Welcome));
      Announce(SendEach(registered, n.peers, ReplicateUser(name, n.id, true), broken), {})
  }

  function HandlePrivate(n: Node, h: Handle, receiver: Text, text: Text, broken: set<int>): Node
    requires h in n.sessions
  {
    var sender := n.sessions[h].name;
    var location := if receiver in n.users then n.users[receiver] else -1;
    if location == n.id then
      if receiver in n.byName then
        Post(Post(n, {n.byName[receiver]}, PrivateMessage(sender, text)), {h}, Status(DeliveredTo(receiver)))
      else n
    else if location > 0 then
      Post(SendEach(n, Select(n.peers, {location}), RoutePrivate(sender, receiver, text), broken),
           {h}, Status(RoutedRemotely))
    else Post(n, {h}, Status(UserOffline))
  }

  function HandleRoomText(n: Node, h: Handle, room: Text, text: Text, broken: set<int>): Node
    requires h in n.sessions
  {
    var sender := n.sessions[h].name;
    if room !in n.sessions[h].rooms then Post(n, {h}, Status(JoinRoomFirst))
    else
      SendEach(PostToNames(n, n.Local(room), RoomMessage(sender, room, text)),
               Select(n.peers, n.Remote(room)), RouteRoom(sender, room, text), broken)
  }

  function HandleBroadcast(n: Node, h: Handle, text: Text, broken: set<int>): Node
    requires h in n.sessions
  {
    var sender := n.sessions[h].name;
    SendEach(Post(n, n.Authenticated(), BroadcastMessage(sender, text)),
             n.peers, RouteBroadcast(sender, text), broken)
  }

  function HandleJoin(n: Node, h: Handle, room: Text, broken: set<int>): Node
    requires h in n.sessions
  {
    var user := n.sessions[h].name;
    if room == [] then n
    else
      var inside := n.(sessions := n.sessions[h := n.sessions[h].(rooms := n.sessions[h].rooms + {room})]);
      var joined := Post(JoinLocal(inside, room, user), {h}, Status(Joined(room)));
      var told := PostToNames(joined, joined.Local(room), Status(Entered(user, room)));
      if n.Local(room) == {} then SendEach(told, n.peers, RoomSync(room, n.id, true), broken) else told
  }

  function HandleLeave(n: Node, h: Handle, room: Text, broken: set<int>): Node
    requires h in n.sessions
  {
    var user := n.sessions[h].name;
    if room == [] || room !in n.sessions[h].rooms then n
    else
      var outside := n.(sessions := n.sessions[h := n.sessions[h].(rooms := n.sessions[h].rooms - {room})]);
      var departed := Post(LeaveLocal(outside, room, user), {h}, Status(Left(room)));
      var told := PostToNames(departed, departed.Local(room), Status(Departed(user, room)));
      if departed.Local(room) == {} then SendEach(told, n.peers, RoomSync(room, n.id, false), broken) else told
  }

  function HandleCreate(n: Node, h: Handle, room: Text): Node {
    if room == [] then n else Post(n, {h}, Status(Created(room)))
  }

  /** `ConnectionManager::RemoveSession`. */
  function RemoveSession(n: Node, h: Handle): Node
    requires h in n.sessions
  {
    if h !in n.live then n
    else
      n.(live := n.live - {h},
         byName := if n.sessions[h].name == [] then n.byName else n.byName - {n.sessions[h].name})
  }

  /** S2S_CONNECT on a client session: the session becomes the link to peer `p`. */
  function Promote(n: Node, h: Handle, p: int): Node
    requires h in n.sessions
  {
    PeerUp(RemoveSession(n, h), p)
  }

  function PeerUp(n: Node, p: int): Node {
    if p in n.out then n.(up := n.up + {p}) else n
  }

  /** `HandleClientPacket`. */
  function HandleRequest(n: Node, h: Handle, q: Request, broken: set<int>): Node
    requires h in n.sessions
  {
    if !n.sessions[h].authenticated && !q.Login? && !q.Connect? then
      Post(n, {h}, LoginResponse(false, AuthenticationRequired))
    else
      match q
      case Login(name) => HandleLogin(n, h, name, broken)
      case Private(receiver, text) => HandlePrivate(n, h, receiver, text, broken)
      case RoomText(room, text) => HandleRoomText(n, h, room, text, broken)
      case Broadcast(text) => HandleBroadcast(n, h, text, broken)
      case Join(room) => HandleJoin(n, h, room, broken)
      case Leave(room) => HandleLeave(n, h, room, broken)
      case Create(room) => HandleCreate(n, h, room)
      case Connect(peer) => if peer.Some? then Promote(n, h, peer.value) else n
      case Dropped => n
  }

  /** A new raw connection. */
  function AcceptSession(n: Node, h: Handle): Node {
    n.(sessions := n.sessions[h := Session([], false, {}, [])], live := n.live + {h})
  }

  /** The client-disconnect branch of `ListenerLoop`. */
  function Hangup(n: Node, h: Handle, broken: set<int>): Node
    requires h in n.sessions
  {
    var user := n.sessions[h].name;
    if user == [] then RemoveSession(n, h)
    else
      var gone := SendEach(n.(users := n.users - {user}), n.peers, ReplicateUser(user, n.id, false), broken);
      RemoveSession(Announce(gone, {h}), h)
  }

  // Server handlers.

  /** `HandleServerPacket`, for a message from peer `p`. */
  function Receive(n: Node, p: int, m: Message): Node {
    match m
    case Heartbeat => if p in n.up then Send(n, p, HeartbeatAck) else n
    case HeartbeatAck => n
    case ReplicateUser(u, s, online) =>
      Announce(n.(users := if online then n.users[u := s] else n.users - {u}), {})
    case RoutePrivate(sender, receiver, text) =>
      if receiver in n.byName then Post(n, {n.byName[receiver]}, PrivateMessage(sender, text)) else n
    case RouteBroadcast(sender, text) => Post(n, n.Authenticated(), BroadcastMessage(sender, text))
    case RouteRoom(sender, room, text) => PostToNames(n, n.Local(room), RoomMessage(sender, room, text))
    case RoomSync(room, s, active) => if active then JoinRemote(n, room, s) else LeaveRemote(n, room, s)
    case Unreadable => n
  }

  /** One ping of `HeartbeatLoop`. */
  function Ping(n: Node, p: int): Node {
    if p in n.up then Send(n, p, Heartbeat) else n
  }
}
