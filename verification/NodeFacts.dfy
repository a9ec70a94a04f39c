/** What the handlers do when no send fails: which peers hear what, and how the
    tables change. */
module NodeFacts {
  import opened Bytes
  import opened Messages
  import opened Nodes
  import Decimal

  ghost predicate NoDuplicates<T(!new)>(s: seq<T>) {
    forall i, j | 0 <= i < j < |s| :: s[i] != s[j]
  }

  function Elements<T>(s: seq<T>): set<T> {
    set x | x in s
  }

  /** What every reachable server state satisfies. */
  ghost predicate Sane(n: Node) {
    && 0 < n.id && Decimal.InIntRange(n.id)
    && NoDuplicates(n.peers)
    && n.out.Keys == Elements(n.peers)
    && n.id !in n.out
    && (forall p <- n.out :: 0 < p)
    && n.up <= n.out.Keys
    && (forall p <- n.out :: p in n.up || n.out[p] == [])
    && n.live <= n.sessions.Keys
    && (forall u <- n.byName :: n.byName[u] in n.sessions)
    && (forall h <- n.sessions :: NulFree(n.sessions[h].name))
    && (forall h <- n.sessions :: n.sessions[h].authenticated <==> n.sessions[h].name != [])
  }

  /** Room names and texts without NUL bytes; promotion to a link is a step of its own. */
  predicate WellFormed(q: Request) {
    match q
    case Private(receiver, text) => NulFree(receiver) && NulFree(text)
    case RoomText(room, text) => NulFree(room) && NulFree(text)
    case Broadcast(text) => NulFree(text)
    case Join(room) => NulFree(room)
    case Leave(room) => NulFree(room)
    case Connect(_) => false
    case _ => true
  }

  /** `m` appended to what is under way to each of `targets`. */
  function Spread(n: Node, targets: set<int>, m: Message): Node {
    n.(out := map p | p in n.out :: if p in targets then n.out[p] + [m] else n.out[p])
  }

  datatype Emission = Quiet | To(targets: set<int>, m: Message)

  function Emit(n: Node, e: Emission): Node {
    match e
    case Quiet => n
    case To(targets, m) => Spread(n, targets, m)
  }

  /** Which peers are sent which packet on a client's request: never more than one
      packet to a peer. */
  function EmissionOf(n: Node, h: Handle, q: Request): Emission
    requires h in n.sessions
  {
    var me := n.sessions[h];
    match q
    case Login(name) =>
      if ValidName(name) && name !in n.users then To(n.up, ReplicateUser(name, n.id, true)) else Quiet
    case Private(receiver, text) =>
      if me.authenticated && receiver in n.users && n.users[receiver] != n.id && n.users[receiver] > 0 then
        To({n.users[receiver]} * n.up, RoutePrivate(me.name, receiver, text))
      else Quiet
    case RoomText(room, text) =>
      if me.authenticated && room in me.rooms then To(n.Remote(room) * n.up, RouteRoom(me.name, room, text)) else Quiet
    case Broadcast(text) =>
      if me.authenticated then To(n.up, RouteBroadcast(me.name, text)) else Quiet
    case Join(room) =>
      if me.authenticated && room != [] && n.Local(room) == {} then To(n.up, RoomSync(room, n.id, true)) else Quiet
    case Leave(room) =>
      if me.authenticated && room != [] && room in me.rooms && n.Local(room) <= {me.name} then
        To(n.up, RoomSync(room, n.id, false))
      else Quiet
    case _ => Quiet
  }

  function EmissionOfHangup(n: Node, h: Handle): Emission
    requires h in n.sessions
  {
    var user := n.sessions[h].name;
    if user == [] then Quiet else To(n.up, ReplicateUser(user, n.id, false))
  }

  lemma SendOneSpreads(n: Node, p: int, m: Message)
    requires n.up <= n.out.Keys && Sendable(m)
    ensures SendOne(n, p, m, {}) == Spread(n, {p} * n.up, m)
  {
    WireFaithful(n.id, m);
    if p in n.up {
      assert Send(n, p, m).out == Spread(n, {p} * n.up, m).out;
    } else {
      assert n.out == Spread(n, {p} * n.up, m).out;
    }
  }

  lemma SpreadTwice(n: Node, a: set<int>, b: set<int>, m: Message)
    requires a !! b
    ensures Spread(Spread(n, a, m), b, m) == Spread(n, a + b, m)
  {
    assert Spread(Spread(n, a, m), b, m).out == Spread(n, a + b, m).out;
  }

  /** Without send failures the loop over peers reaches each connected one once. */
  lemma {:induction false} SendEachSpreads(n: Node, ps: seq<int>, m: Message)
    requires NoDuplicates(ps) && n.up <= n.out.Keys && Sendable(m)
    ensures SendEach(n, ps, m, {}) == Spread(n, Elements(ps) * n.up, m)
    decreases |ps|
  {
    if ps == [] {
      assert Spread(n, Elements(ps) * n.up, m).out == n.out;
    } else {
      var p, more := ps[0], ps[1..];
      SendOneSpreads(n, p, m);
      SendEachSpreads(Spread(n, {p} * n.up, m), more, m);
      assert p !in more;
      SpreadTwice(n, {p} * n.up, Elements(more) * n.up, m);
      assert Elements(ps) * n.up == {p} * n.up + Elements(more) * n.up;
    }
  }

  lemma {:induction false} SelectElements(ps: seq<int>, s: set<int>)
    requires NoDuplicates(ps)
    ensures Elements(Select(ps, s)) == Elements(ps) * s
    ensures NoDuplicates(Select(ps, s))
  {
    if ps != [] {
      SelectElements(ps[1..], s);
      assert Elements(ps) == {ps[0]} + Elements(ps[1..]);
      var more := Select(ps[1..], s);
      assert Elements([ps[0]] + more) == {ps[0]} + Elements(more);
      assert ps[0] !in Elements(ps[1..]);
      assert forall x <- more :: x in Elements(more);
    }
  }

  // The tables, logs aside.

  /** A server state without the logs of its sessions. */
  function Core(n: Node): Node {
    n.(sessions := map h | h in n.sessions :: n.sessions[h].(log := []))
  }

  lemma CorePost(n: Node, to: set<Handle>, m: ClientMessage)
    ensures Core(Post(n, to, m)) == Core(n)
  {
    assert Core(Post(n, to, m)).sessions == Core(n).sessions;
  }

  lemma CorePostToNames(n: Node, names: set<Text>, m: ClientMessage)
    ensures Core(PostToNames(n, names, m)) == Core(n)
  {
    assert Core(PostToNames(n, names, m)).sessions == Core(n).sessions;
  }

  lemma CoreSpread(n: Node, k: Node, targets: set<int>, m: Message)
    requires Core(n) == Core(k)
    ensures Core(Spread(n, targets, m)) == Core(Spread(k, targets, m))
  {
    assert n == Core(n).(sessions := n.sessions) && k == Core(k).(sessions := k.sessions);
  }

  /** How a request changes the tables of its server. */
  function TablesAfter(n: Node, h: Handle, q: Request): Node
    requires h in n.sessions
  {
    var me := n.sessions[h];
    match q
    case Login(name) => if ValidName(name) && name !in n.users then Register(n, h, name) else n
    case Join(room) =>
      if me.authenticated && room != [] then
        JoinLocal(n.(sessions := n.sessions[h := me.(rooms := me.rooms + {room})]), room, me.name)
      else n
    case Leave(room) =>
      if me.authenticated && room != [] && room in me.rooms then
        LeaveLocal(n.(sessions := n.sessions[h := me.(rooms := me.rooms - {room})]), room, me.name)
      else n
    case _ => n
  }

  function TablesAfterHangup(n: Node, h: Handle): Node
    requires h in n.sessions
  {
    var user := n.sessions[h].name;
    RemoveSession(if user == [] then n else n.(users := n.users - {user}), h)
  }

  function TablesAfterReceive(n: Node, p: int, m: Message): Node {
    match m
    case ReplicateUser(u, s, online) => n.(users := if online then n.users[u := s] else n.users - {u})
    case RoomSync(room, s, active) => if active then JoinRemote(n, room, s) else LeaveRemote(n, room, s)
    case Heartbeat => Spread(n, {p} * n.up, HeartbeatAck)
    case _ => n
  }

  lemma SendToAll(n: Node, m: Message)
    requires n.up <= n.out.Keys == Elements(n.peers) && NoDuplicates(n.peers) && Sendable(m)
    ensures SendEach(n, n.peers, m, {}) == Spread(n, n.up, m)
  {
    SendEachSpreads(n, n.peers, m);
    assert Elements(n.peers) * n.up == n.up;
  }

  lemma SendToSome(n: Node, s: set<int>, m: Message)
    requires n.up <= n.out.Keys == Elements(n.peers) && NoDuplicates(n.peers) && Sendable(m)
    ensures SendEach(n, Select(n.peers, s), m, {}) == Spread(n, s * n.up, m)
  {
    SelectElements(n.peers, s);
    SendEachSpreads(n, Select(n.peers, s), m);
    assert Elements(n.peers) * s * n.up == s * n.up;
  }

  /** The table updates of a request and the packets it puts on the links, in one line. */
  lemma RequestCore(n: Node, h: Handle, q: Request)
    requires Sane(n) && h in n.sessions && WellFormed(q)
    ensures Core(HandleRequest(n, h, q, {})) == Core(Emit(TablesAfter(n, h, q), EmissionOf(n, h, q)))
  {
    var me := n.sessions[h];
    if !me.authenticated && !q.Login? {
      CorePost(n, {h}, LoginResponse(false, AuthenticationRequired));
    } else {
      match q
      case Login(name) => LoginCore(n, h, name);
      case Private(receiver, text) => PrivateCore(n, h, receiver, text);
      case RoomText(room, text) => RoomTextCore(n, h, room, text);
      case Broadcast(text) => BroadcastCore(n, h, text);
      case Join(room) => JoinCore(n, h, room);
      case Leave(room) => LeaveCore(n, h, room);
      case Create(room) => CorePost(n, {h}, Status(Created(room)));
      case Dropped =>
    }
  }

  lemma LoginCore(n: Node, h: Handle, name: Text)
    requires Sane(n) && h in n.sessions
    ensures Core(HandleLogin(n, h, name, {})) ==
            Core(Emit(TablesAfter(n, h, Login(name)), EmissionOf(n, h, Login(name))))
  {
    if ValidName(name) && name !in n.users {
      var r := Register(n, h, name);
      var welcomed := Post(r, {h}, LoginResponse(true, Welcome));
      var m := ReplicateUser(name, n.id, true);
      SendToAll(welcomed, m);
      CorePost(r, {h}, LoginResponse(true, Welcome));
      CoreSpread(welcomed, r, n.up, m);
      CorePost(Spread(welcomed, n.up, m), Spread(welcomed, n.up, m).Authenticated() - {}, Presence(r.users.Keys));
    } else {
      CorePost(n, {h}, LoginResponse(false, if ValidName(name) then AlreadyOnline else InvalidName));
    }
  }

  lemma PrivateCore(n: Node, h: Handle, receiver: Text, text: Text)
    requires Sane(n) && h in n.sessions && n.sessions[h].authenticated && NulFree(receiver) && NulFree(text)
    ensures var q := Private(receiver, text);
            Core(HandlePrivate(n, h, receiver, text, {})) == Core(Emit(TablesAfter(n, h, q), EmissionOf(n, h, q)))
  {
    var sender := n.sessions[h].name;
    if n.Location(receiver) == Some(n.id) {
      if receiver in n.byName {
        var m := PrivateMessage(sender, text);
        CorePost(n, {n.byName[receiver]}, m);
        CorePost(Post(n, {n.byName[receiver]}, m), {h}, Status(DeliveredTo(receiver)));
      }
    } else if receiver in n.users && n.users[receiver] > 0 {
      var m := RoutePrivate(sender, receiver, text);
      SendToSome(n, {n.users[receiver]}, m);
      CorePost(Spread(n, {n.users[receiver]} * n.up, m), {h}, Status(RoutedRemotely));
    } else {
      CorePost(n, {h}, Status(UserOffline));
    }
  }

  lemma RoomTextCore(n: Node, h: Handle, room: Text, text: Text)
    requires Sane(n) && h in n.sessions && n.sessions[h].authenticated && NulFree(room) && NulFree(text)
    ensures var q := RoomText(room, text);
            Core(HandleRoomText(n, h, room, text, {})) == Core(Emit(TablesAfter(n, h, q), EmissionOf(n, h, q)))
  {
    var sender := n.sessions[h].name;
    if room !in n.sessions[h].rooms {
      CorePost(n, {h}, Status(JoinRoomFirst));
    } else {
      var posted := PostToNames(n, n.Local(room), RoomMessage(sender, room, text));
      var m := RouteRoom(sender, room, text);
      SendToSome(posted, n.Remote(room), m);
      CorePostToNames(n, n.Local(room), RoomMessage(sender, room, text));
      CoreSpread(posted, n, n.Remote(room) * n.up, m);
    }
  }

  lemma BroadcastCore(n: Node, h: Handle, text: Text)
    requires Sane(n) && h in n.sessions && n.sessions[h].authenticated && NulFree(text)
    ensures var q := Broadcast(text);
            Core(HandleBroadcast(n, h, text, {})) == Core(Emit(TablesAfter(n, h, q), EmissionOf(n, h, q)))
  {
    var sender := n.sessions[h].name;
    var posted := Post(n, n.Authenticated(), BroadcastMessage(sender, text));
    SendToAll(posted, RouteBroadcast(sender, text));
    CorePost(n, n.Authenticated(), BroadcastMessage(sender, text));
    CoreSpread(posted, n, n.up, RouteBroadcast(sender, text));
  }

  lemma JoinCore(n: Node, h: Handle, room: Text)
    requires Sane(n) && h in n.sessions && n.sessions[h].authenticated && NulFree(room)
    ensures Core(HandleJoin(n, h, room, {})) ==
            Core(Emit(TablesAfter(n, h, Join(room)), EmissionOf(n, h, Join(room))))
  {
    if room != [] {
      var user := n.sessions[h].name;
      var tables := TablesAfter(n, h, Join(room));
      var joined := Post(tables, {h}, Status(Joined(room)));
      var told := PostToNames(joined, joined.Local(room), Status(Entered(user, room)));
      CorePost(tables, {h}, Status(Joined(room)));
      CorePostToNames(joined, joined.Local(room), Status(Entered(user, room)));
      if n.Local(room) == {} {
        SendToAll(told, RoomSync(room, n.id, true));
        CoreSpread(told, tables, n.up, RoomSync(room, n.id, true));
      }
    }
  }

  lemma LeaveCore(n: Node, h: Handle, room: Text)
    requires Sane(n) && h in n.sessions && n.sessions[h].authenticated && NulFree(room)
    ensures Core(HandleLeave(n, h, room, {})) ==
            Core(Emit(TablesAfter(n, h, Leave(room)), EmissionOf(n, h, Leave(room))))
  {
    if room != [] && room in n.sessions[h].rooms {
      var user := n.sessions[h].name;
      var tables := TablesAfter(n, h, Leave(room));
      var departed := Post(tables, {h}, Status(Left(room)));
      var told := PostToNames(departed, departed.Local(room), Status(Departed(user, room)));
      CorePost(tables, {h}, Status(Left(room)));
      CorePostToNames(departed, departed.Local(room), Status(Departed(user, room)));
      assert departed.Local(room) == {} <==> n.Local(room) <= {user};
      if departed.Local(room) == {} {
        SendToAll(told, RoomSync(room, n.id, false));
        CoreSpread(told, tables, n.up, RoomSync(room, n.id, false));
      }
    }
  }

  lemma HangupCore(n: Node, h: Handle)
    requires Sane(n) && h in n.live
    ensures Core(Hangup(n, h, {})) == Core(Emit(TablesAfterHangup(n, h), EmissionOfHangup(n, h)))
  {
    var user := n.sessions[h].name;
    if user == [] {
    } else {
      var less := n.(users := n.users - {user});
      var m := ReplicateUser(user, n.id, false);
      SendToAll(less, m);
      var gone := Spread(less, n.up, m);
      CorePost(gone, gone.Authenticated() - {h}, Presence(gone.users.Keys));
    }
  }

  lemma ReceiveCore(n: Node, p: int, m: Message)
    requires Sane(n) && p in n.out
    ensures Core(Receive(n, p, m)) == Core(TablesAfterReceive(n, p, m))
  {
    match m
    case Heartbeat => SendOneSpreads(n, p, HeartbeatAck);
    case ReplicateUser(u, s, online) =>
      var told := TablesAfterReceive(n, p, m);
      CorePost(told, told.Authenticated() - {}, Presence(told.users.Keys));
    case RoutePrivate(sender, receiver, text) =>
      if receiver in n.byName { CorePost(n, {n.byName[receiver]}, PrivateMessage(sender, text)); }
    case RouteBroadcast(sender, text) => CorePost(n, n.Authenticated(), BroadcastMessage(sender, text));
    case RouteRoom(sender, room, text) => CorePostToNames(n, n.Local(room), RoomMessage(sender, room, text));
    case _ =>
  }
}
