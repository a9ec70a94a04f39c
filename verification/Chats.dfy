/** Chat messages: which packet carries one between servers, what a reader is sent, and
    how many copies of it each handler hands to each session. */
module Chats {
  import opened Bytes
  import opened Messages
  import opened Nodes
  import opened NodeFacts
  import opened Cluster

  datatype Chat =
    | PrivateChat(sender: Text, receiver: Text, text: Text)
    | RoomChat(sender: Text, room: Text, text: Text)
    | BroadcastChat(sender: Text, text: Text)

  /** The packet that takes the chat to another server. */
  function Carrier(k: Chat): Message {
    match k
    case PrivateChat(a, r, x) => RoutePrivate(a, r, x)
    case RoomChat(a, r, x) => RouteRoom(a, r, x)
    case BroadcastChat(a, x) => RouteBroadcast(a, x)
  }

  /** What a reader is sent. */
  function CopyOf(k: Chat): ClientMessage {
    match k
    case PrivateChat(a, _, x) => PrivateMessage(a, x)
    case RoomChat(a, r, x) => RoomMessage(a, r, x)
    case BroadcastChat(a, x) => BroadcastMessage(a, x)
  }

  predicate IsChat(m: ClientMessage) {
    m.PrivateMessage? || m.RoomMessage? || m.BroadcastMessage?
  }

  /** How many copies session `g` is due when server `n` handles the chat. */
  function Readers(n: Node, k: Chat, g: Handle): nat {
    match k
    case PrivateChat(_, receiver, _) => if receiver in n.byName && n.byName[receiver] == g then 1 else 0
    case RoomChat(_, room, _) => |NamesOf(n, n.Local(room), g)|
    case BroadcastChat(_, _) => if g in n.Authenticated() then 1 else 0
  }

  /** How often session `g` has been sent `m`. */
  function Received(n: Node, g: Handle, m: ClientMessage): nat {
    if g in n.sessions then multiset(n.sessions[g].log)[m] else 0
  }

  /** The chat a request asks for, if its sender may ask. */
  function Origin(n: Node, h: Handle, q: Request): Option<Chat>
    requires h in n.sessions
  {
    var me := n.sessions[h];
    if !me.authenticated then None
    else
      match q
      case Private(receiver, text) => Some(PrivateChat(me.name, receiver, text))
      case RoomText(room, text) => if room in me.rooms then Some(RoomChat(me.name, room, text)) else None
      case Broadcast(text) => Some(BroadcastChat(me.name, text))
      case _ => None
  }

  /** Copies that session `g` gets from its own server when the chat is asked for
      there: a private message to a user placed elsewhere is only sent on. */
  function LocalReaders(n: Node, k: Chat, g: Handle): nat {
    if k.PrivateChat? && n.Location(k.receiver) != Some(n.id) then 0 else Readers(n, k, g)
  }

  /** Copies of client message `m` that session `g` gets when the packet is handled. */
  function Gain(n: Node, packet: Message, g: Handle, m: ClientMessage): nat {
    match packet
    case RoutePrivate(a, r, x) => if m == PrivateMessage(a, x) then Readers(n, PrivateChat(a, r, x), g) else 0
    case RouteRoom(a, r, x) => if m == RoomMessage(a, r, x) then Readers(n, RoomChat(a, r, x), g) else 0
    case RouteBroadcast(a, x) => if m == BroadcastMessage(a, x) then Readers(n, BroadcastChat(a, x), g) else 0
    case _ => 0
  }

  // Logs.

  lemma {:induction false} CopiesCount(m: ClientMessage, k: nat, c: ClientMessage)
    ensures multiset(Copies(m, k))[c] == if c == m then k else 0
  {
    if k != 0 {
      CopiesCount(m, k - 1, c);
      assert Copies(m, k) == Copies(m, k - 1) + [m];
    }
  }

  lemma PostReceived(n: Node, to: set<Handle>, m: ClientMessage, g: Handle, c: ClientMessage)
    ensures Received(Post(n, to, m), g, c) ==
            Received(n, g, c) + if g in n.sessions && g in to && c == m then 1 else 0
  {
  }

  lemma PostToNamesReceived(n: Node, names: set<Text>, m: ClientMessage, g: Handle, c: ClientMessage)
    ensures Received(PostToNames(n, names, m), g, c) ==
            Received(n, g, c) + if g in n.sessions && c == m then |NamesOf(n, names, g)| else 0
  {
    CopiesCount(m, |NamesOf(n, names, g)|, c);
  }

  lemma AnnounceReceived(n: Node, except: set<Handle>, g: Handle, c: ClientMessage)
    requires IsChat(c)
    ensures Received(Announce(n, except), g, c) == Received(n, g, c)
  {
    PostReceived(n, n.Authenticated() - except, Presence(n.users.Keys), g, c);
  }

  /** Handling a packet hands out its chat and no other. */
  lemma ReceiveReceived(n: Node, p: int, packet: Message, g: Handle, c: ClientMessage)
    requires IsChat(c) && g in n.sessions
    ensures Received(Receive(n, p, packet), g, c) == Received(n, g, c) + Gain(n, packet, g, c)
  {
    match packet
    case ReplicateUser(u, s, online) => AnnounceReceived(TablesAfterReceive(n, p, packet), {}, g, c);
    case RoutePrivate(a, r, x) =>
      if r in n.byName { PostReceived(n, {n.byName[r]}, PrivateMessage(a, x), g, c); }
    case RouteBroadcast(a, x) => PostReceived(n, n.Authenticated(), BroadcastMessage(a, x), g, c);
    case RouteRoom(a, r, x) => PostToNamesReceived(n, n.Local(r), RoomMessage(a, r, x), g, c);
    case _ =>
  }

  lemma PeerDownReceived(n: Node, p: int, g: Handle, c: ClientMessage)
    requires IsChat(c)
    ensures Received(PeerDown(n, p), g, c) == Received(n, g, c)
  {
    if p in n.up { AnnounceReceived(PeerDownTables(n, p), {}, g, c); }
  }

  lemma HangupReceived(n: Node, h: Handle, g: Handle, c: ClientMessage)
    requires Sane(n) && h in n.live && IsChat(c)
    ensures Received(Hangup(n, h, {}), g, c) == Received(n, g, c)
  {
    var user := n.sessions[h].name;
    if user != [] {
      var less := n.(users := n.users - {user});
      SendToAll(less, ReplicateUser(user, n.id, false));
      AnnounceReceived(Spread(less, n.up, ReplicateUser(user, n.id, false)), {h}, g, c);
    }
  }

  /** A request hands out the chat it asks for to the readers on its own server, and no
      other chat to anybody. */
  lemma AskReceived(n: Node, h: Handle, q: Request, g: Handle, c: ClientMessage)
    requires Sane(n) && h in n.sessions && g in n.sessions && WellFormed(q) && IsChat(c)
    ensures var o := Origin(n, h, q);
            Received(HandleRequest(n, h, q, {}), g, c) ==
            Received(n, g, c) + if o.Some? && CopyOf(o.value) == c then LocalReaders(n, o.value, g) else 0
  {
    if !n.sessions[h].authenticated && !q.Login? {
      PostReceived(n, {h}, LoginResponse(false, AuthenticationRequired), g, c);
    } else {
      match q
      case Login(name) => LoginReceived(n, h, name, g, c);
      case Private(receiver, text) => PrivateReceived(n, h, receiver, text, g, c);
      case RoomText(room, text) => RoomTextReceived(n, h, room, text, g, c);
      case Broadcast(text) => BroadcastReceived(n, h, text, g, c);
      case Join(room) => JoinReceived(n, h, room, g, c);
      case Leave(room) => LeaveReceived(n, h, room, g, c);
      case Create(room) => PostReceived(n, {h}, Status(Created(room)), g, c);
      case Dropped =>
    }
  }

  lemma LoginReceived(n: Node, h: Handle, name: Text, g: Handle, c: ClientMessage)
    requires Sane(n) && h in n.sessions && IsChat(c)
    ensures Received(HandleLogin(n, h, name, {}), g, c) == Received(n, g, c)
  {
    if ValidName(name) && name !in n.users {
      var r := Register(n, h, name);
      var welcomed := Post(r, {h}, LoginResponse(true, Welcome));
      PostReceived(r, {h}, LoginResponse(true, Welcome), g, c);
      SendToAll(welcomed, ReplicateUser(name, n.id, true));
      AnnounceReceived(Spread(welcomed, n.up, ReplicateUser(name, n.id, true)), {}, g, c);
    } else {
      PostReceived(n, {h}, LoginResponse(false, if ValidName(name) then AlreadyOnline else InvalidName), g, c);
    }
  }

  lemma PrivateReceived(n: Node, h: Handle, receiver: Text, text: Text, g: Handle, c: ClientMessage)
    requires Sane(n) && h in n.sessions && n.sessions[h].authenticated && g in n.sessions && IsChat(c)
    requires NulFree(receiver) && NulFree(text)
    ensures var k := PrivateChat(n.sessions[h].name, receiver, text);
            Received(HandlePrivate(n, h, receiver, text, {}), g, c) ==
            Received(n, g, c) + if CopyOf(k) == c then LocalReaders(n, k, g) else 0
  {
    var sender := n.sessions[h].name;
    if n.Location(receiver) == Some(n.id) {
      if receiver in n.byName {
        var told := Post(n, {n.byName[receiver]}, PrivateMessage(sender, text));
        PostReceived(n, {n.byName[receiver]}, PrivateMessage(sender, text), g, c);
        PostReceived(told, {h}, Status(DeliveredTo(receiver)), g, c);
      }
    } else if receiver in n.users && n.users[receiver] > 0 {
      var m := RoutePrivate(sender, receiver, text);
      SendToSome(n, {n.users[receiver]}, m);
      PostReceived(Spread(n, {n.users[receiver]} * n.up, m), {h}, Status(RoutedRemotely), g, c);
    } else {
      PostReceived(n, {h}, Status(UserOffline), g, c);
    }
  }

  lemma RoomTextReceived(n: Node, h: Handle, room: Text, text: Text, g: Handle, c: ClientMessage)
    requires Sane(n) && h in n.sessions && n.sessions[h].authenticated && g in n.sessions && IsChat(c)
    requires NulFree(room) && NulFree(text)
    ensures var k := RoomChat(n.sessions[h].name, room, text);
            Received(HandleRoomText(n, h, room, text, {}), g, c) ==
            Received(n, g, c) + if room in n.sessions[h].rooms && CopyOf(k) == c then Readers(n, k, g) else 0
  {
    var m := RoomMessage(n.sessions[h].name, room, text);
    if room in n.sessions[h].rooms {
      var posted := PostToNames(n, n.Local(room), m);
      PostToNamesReceived(n, n.Local(room), m, g, c);
      SendToSome(posted, n.Remote(room), RouteRoom(n.sessions[h].name, room, text));
    } else {
      PostReceived(n, {h}, Status(JoinRoomFirst), g, c);
    }
  }

  lemma BroadcastReceived(n: Node, h: Handle, text: Text, g: Handle, c: ClientMessage)
    requires Sane(n) && h in n.sessions && n.sessions[h].authenticated && g in n.sessions && NulFree(text)
    ensures var k := BroadcastChat(n.sessions[h].name, text);
            Received(HandleBroadcast(n, h, text, {}), g, c) ==
            Received(n, g, c) + if CopyOf(k) == c then Readers(n, k, g) else 0
  {
    var m := BroadcastMessage(n.sessions[h].name, text);
    var posted := Post(n, n.Authenticated(), m);
    PostReceived(n, n.Authenticated(), m, g, c);
    SendToAll(posted, RouteBroadcast(n.sessions[h].name, text));
  }

  lemma StatusReceived(n: Node, h: Handle, a: Notice, names: set<Text>, b: Notice, g: Handle, c: ClientMessage)
    requires IsChat(c)
    ensures Received(PostToNames(Post(n, {h}, Status(a)), names, Status(b)), g, c) == Received(n, g, c)
  {
    PostReceived(n, {h}, Status(a), g, c);
    PostToNamesReceived(Post(n, {h}, Status(a)), names, Status(b), g, c);
  }

  lemma JoinReceived(n: Node, h: Handle, room: Text, g: Handle, c: ClientMessage)
    requires Sane(n) && h in n.sessions && n.sessions[h].authenticated && IsChat(c) && NulFree(room)
    ensures Received(HandleJoin(n, h, room, {}), g, c) == Received(n, g, c)
  {
    if room != [] {
      var user := n.sessions[h].name;
      var tables := TablesAfter(n, h, Join(room));
      var joined := Post(tables, {h}, Status(Joined(room)));
      StatusReceived(tables, h, Joined(room), joined.Local(room), Entered(user, room), g, c);
      if n.Local(room) == {} {
        SendToAll(PostToNames(joined, joined.Local(room), Status(Entered(user, room))), RoomSync(room, n.id, true));
      }
    }
  }

  lemma LeaveReceived(n: Node, h: Handle, room: Text, g: Handle, c: ClientMessage)
    requires Sane(n) && h in n.sessions && n.sessions[h].authenticated && IsChat(c) && NulFree(room)
    ensures Received(HandleLeave(n, h, room, {}), g, c) == Received(n, g, c)
  {
    if room != [] && room in n.sessions[h].rooms {
      var user := n.sessions[h].name;
      var tables := TablesAfter(n, h, Leave(room));
      var departed := Post(tables, {h}, Status(Left(room)));
      StatusReceived(tables, h, Left(room), departed.Local(room), Departed(user, room), g, c);
      LeaveSessions(n, h, room);
    }
  }

  lemma LeaveSessions(n: Node, h: Handle, room: Text)
    requires Sane(n) && h in n.sessions && NulFree(room) && room != [] && room in n.sessions[h].rooms
    ensures var outside := n.(sessions := n.sessions[h := n.sessions[h].(rooms := n.sessions[h].rooms - {room})]);
            var departed := Post(LeaveLocal(outside, room, n.sessions[h].name), {h}, Status(Left(room)));
            HandleLeave(n, h, room, {}).sessions ==
            PostToNames(departed, departed.Local(room), Status(Departed(n.sessions[h].name, room))).sessions
  {
    var user := n.sessions[h].name;
    var outside := n.(sessions := n.sessions[h := n.sessions[h].(rooms := n.sessions[h].rooms - {room})]);
    var departed := Post(LeaveLocal(outside, room, user), {h}, Status(Left(room)));
    SendToAll(PostToNames(departed, departed.Local(room), Status(Departed(user, room))), RoomSync(room, n.id, false));
  }

  /** The packets a request puts on the links are those of its chat or none of any chat. */
  lemma AskCarries(n: Node, h: Handle, q: Request, k: Chat)
    requires Sane(n) && h in n.sessions
    ensures var e := EmissionOf(n, h, q);
            e.To? && e.m == Carrier(k) ==> Origin(n, h, q) == Some(k)
    ensures var e := EmissionOf(n, h, q);
            Origin(n, h, q).Some? && e.To? ==> e.m == Carrier(Origin(n, h, q).value)
  {
  }
}
