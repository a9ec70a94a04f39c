/** Who is listed where. A server lists a peer for a room as long as it believes the
    peer has local members in it; RoomSync packets keep that belief up to date. */
module RoomRoutes {
  import opened Bytes
  import opened Messages
  import opened Nodes
  import opened NodeFacts
  import opened Cluster

  function RoomStep(m: Message, room: Text, s: int, listed: bool): bool {
    if m.RoomSync? && m.room == room && m.server == s then m.active else listed
  }

  /** The entry of `s` for `room` once the packets of `q` have been handled. */
  function RoomFold(q: seq<Message>, room: Text, s: int, listed: bool): bool {
    if q == [] then listed else RoomFold(q[1..], room, s, RoomStep(q[0], room, s, listed))
  }

  /** Whether `t` will list `s` for `room` after everything under way from `s`. */
  function RouteView(c: Cluster, s: int, t: int, room: Text): bool
    requires s in c.nodes && t in c.nodes
  {
    RoomFold(c.nodes[s].Queue(t), room, s, s in c.nodes[t].Remote(room))
  }

  predicate Holds(c: Cluster, s: int, room: Text)
    requires s in c.nodes
  {
    c.nodes[s].Local(room) != {}
  }

  /** The packets on a link that change tables speak of the server that sent them. */
  ghost predicate Honest(c: Cluster) {
    forall s <- c.nodes :: HonestNode(c.nodes[s])
  }

  ghost predicate HonestNode(n: Node) {
    forall t <- n.out, m <- n.out[t] :: (m.RoomSync? || m.ReplicateUser?) ==> m.server == n.id
  }

  predicate IsLinkDown(l: Label, s: int, t: int) {
    l == LinkDown(s, t) || l == LinkDown(t, s)
  }

  lemma {:induction false} RoomFoldAppend(q: seq<Message>, m: Message, room: Text, s: int, listed: bool)
    ensures RoomFold(q + [m], room, s, listed) == RoomStep(m, room, s, RoomFold(q, room, s, listed))
  {
    if q == [] {
      assert (q + [m])[1..] == [];
    } else {
      assert (q + [m])[1..] == q[1..] + [m];
      RoomFoldAppend(q[1..], m, room, s, RoomStep(q[0], room, s, listed));
    }
  }

  // One server.

  /** A request moves the first member in or the last member out exactly when it tells
      every connected peer so. */
  lemma AskRooms(n: Node, h: Handle, q: Request, room: Text)
    requires Sane(n) && h in n.sessions && WellFormed(q)
    ensures var k, e := TablesAfter(n, h, q), EmissionOf(n, h, q);
            k.Remote(room) == n.Remote(room) &&
            (e.To? && e.m.RoomSync? ==> e.targets == n.up && e.m.server == n.id) &&
            (k.Local(room) != {}) ==
              if e.To? && e.m.RoomSync? && e.m.room == room then e.m.active else n.Local(room) != {}
  {
    if q.Leave? && room == q.room && h in n.sessions {
      var k := TablesAfter(n, h, q);
      assert n.Local(room) <= {n.sessions[h].name} ==> n.Local(room) - {n.sessions[h].name} == {};
    }
  }

  lemma ReceiveRooms(n: Node, p: int, m: Message, room: Text, s: int)
    ensures var k := TablesAfterReceive(n, p, m);
            k.Local(room) == n.Local(room) &&
            (s in k.Remote(room)) == RoomStep(m, room, s, s in n.Remote(room))
  {
  }

  // One link.

  /** Nothing about the entry of `s` for `room` at `t` moved, or it is now right. */
  ghost predicate RouteMoves(c: Cluster, d: Cluster, s: int, t: int, room: Text)
    requires s in c.nodes && t in c.nodes && c.nodes.Keys == d.nodes.Keys
  {
    RouteStays(c, d, s, t, room) || RouteView(d, s, t, room) == Holds(d, s, room)
  }

  ghost predicate RouteStays(c: Cluster, d: Cluster, s: int, t: int, room: Text)
    requires s in c.nodes && t in c.nodes && c.nodes.Keys == d.nodes.Keys
  {
    RouteView(d, s, t, room) == RouteView(c, s, t, room) && Holds(d, s, room) == Holds(c, s, room)
  }

  lemma EmitMoves(c: Cluster, s: int, k: Node, e: Emission, t: int, room: Text)
    requires s in c.nodes && t in c.nodes && s != t && t in c.nodes[s].up && t in k.out
    requires k.out == c.nodes[s].out
    requires e.To? && e.m.RoomSync? ==> e.targets == c.nodes[s].up && e.m.server == s
    requires (k.Local(room) != {}) ==
             if e.To? && e.m.RoomSync? && e.m.room == room then e.m.active else c.nodes[s].Local(room) != {}
    ensures RouteMoves(c, Cluster(c.nodes[s := Emit(k, e)]), s, t, room)
  {
    if e.To? && t in e.targets {
      RoomFoldAppend(c.nodes[s].Queue(t), e.m, room, s, s in c.nodes[t].Remote(room));
    }
  }

  lemma AskMoves(c: Cluster, x: int, h: Handle, q: Request, s: int, t: int, room: Text)
    requires Sound(c) && Enabled(c, Ask(x, h, q))
    requires s in c.nodes && t in c.nodes && s != t && t in c.nodes[s].up
    ensures RouteMoves(c, Tables(c, Ask(x, h, q)), s, t, room)
  {
    var n := c.nodes[x];
    AskRooms(n, h, q, room);
    if x == s {
      AskMovesOwn(c, h, q, s, t, room);
    }
  }

  lemma AskMovesOwn(c: Cluster, h: Handle, q: Request, s: int, t: int, room: Text)
    requires Sound(c) && Enabled(c, Ask(s, h, q))
    requires t in c.nodes && s != t && t in c.nodes[s].up
    ensures RouteMoves(c, Tables(c, Ask(s, h, q)), s, t, room)
  {
    var n := c.nodes[s];
    AskRooms(n, h, q, room);
    TablesAfterSane(n, h, q);
    EmitMoves(c, s, TablesAfter(n, h, q), EmissionOf(n, h, q), t, room);
  }

  /** Handling the first packet under way leaves the final entry as it was. */
  lemma DeliverHere(c: Cluster, s: int, t: int, room: Text)
    requires Sound(c) && Enabled(c, Deliver(s, t))
    ensures RouteStays(c, Tables(c, Deliver(s, t)), s, t, room)
  {
    ReceiveRooms(c.nodes[t], s, c.nodes[s].Queue(t)[0], room, s);
  }

  lemma ReceiveQueue(n: Node, p: int, m: Message, t: int)
    requires t in n.out
    ensures var k := TablesAfterReceive(n, p, m);
            k.Queue(t) == n.Queue(t) || k.Queue(t) == n.Queue(t) + [HeartbeatAck]
  {
  }

  lemma DeliverElsewhere(c: Cluster, x: int, y: int, s: int, t: int, room: Text)
    requires Sound(c) && Honest(c) && Enabled(c, Deliver(x, y)) && !(x == s && y == t)
    requires s in c.nodes && t in c.nodes && s != t
    ensures RouteStays(c, Tables(c, Deliver(x, y)), s, t, room)
  {
    if y == s {
      DeliverToSource(c, x, s, t, room);
    } else if y == t {
      DeliverToTarget(c, x, s, t, room);
    }
  }

  lemma DeliverToSource(c: Cluster, x: int, s: int, t: int, room: Text)
    requires Enabled(c, Deliver(x, s)) && s in c.nodes && t in c.nodes && s != t && t in c.nodes[s].out
    ensures RouteStays(c, Tables(c, Deliver(x, s)), s, t, room)
  {
    var m := c.nodes[x].Queue(s)[0];
    ReceiveRooms(c.nodes[s], x, m, room, s);
    ReceiveRooms(c.nodes[s], x, m, room, t);
    ReceiveQueue(c.nodes[s], x, m, t);
    RoomFoldAppend(c.nodes[s].Queue(t), HeartbeatAck, room, s, s in c.nodes[t].Remote(room));
  }

  lemma DeliverToTarget(c: Cluster, x: int, s: int, t: int, room: Text)
    requires Honest(c) && Enabled(c, Deliver(x, t)) && x != s && s in c.nodes && s != t && c.nodes[x].id == x
    ensures RouteStays(c, Tables(c, Deliver(x, t)), s, t, room)
  {
    var m := c.nodes[x].Queue(t)[0];
    assert m in c.nodes[x].Queue(t);
    assert HonestNode(c.nodes[x]);
    ReceiveRooms(c.nodes[t], x, m, room, s);
  }

  lemma TickMoves(c: Cluster, x: int, y: int, s: int, t: int, room: Text)
    requires Sound(c) && Enabled(c, Tick(x, y))
    requires s in c.nodes && t in c.nodes && s != t && t in c.nodes[s].up
    ensures RouteMoves(c, Tables(c, Tick(x, y)), s, t, room)
  {
    RoomFoldAppend(c.nodes[s].Queue(t), Heartbeat, room, s, s in c.nodes[t].Remote(room));
  }

  lemma HangUpMoves(c: Cluster, x: int, h: Handle, s: int, t: int, room: Text)
    requires Sound(c) && Enabled(c, HangUp(x, h))
    requires s in c.nodes && t in c.nodes && s != t && t in c.nodes[s].up
    ensures RouteMoves(c, Tables(c, HangUp(x, h)), s, t, room)
  {
    HangupRooms(c.nodes[x], h, room);
    if x == s {
      HangUpMovesOwn(c, h, s, t, room);
    }
  }

  lemma HangupRooms(n: Node, h: Handle, room: Text)
    requires h in n.sessions
    ensures var k, e := TablesAfterHangup(n, h), EmissionOfHangup(n, h);
            k.rooms == n.rooms && k.out == n.out && (e.To? ==> e.m.ReplicateUser?)
  {
  }

  lemma HangUpMovesOwn(c: Cluster, h: Handle, s: int, t: int, room: Text)
    requires Sound(c) && Enabled(c, HangUp(s, h))
    requires t in c.nodes && s != t && t in c.nodes[s].up
    ensures RouteMoves(c, Tables(c, HangUp(s, h)), s, t, room)
  {
    var n := c.nodes[s];
    HangupRooms(n, h, room);
    EmitMoves(c, s, TablesAfterHangup(n, h), EmissionOfHangup(n, h), t, room);
  }

  lemma LinkDownMoves(c: Cluster, x: int, y: int, s: int, t: int, room: Text)
    requires Enabled(c, LinkDown(x, y)) && !IsLinkDown(LinkDown(x, y), s, t)
    requires s in c.nodes && t in c.nodes && s != t
    ensures RouteMoves(c, Tables(c, LinkDown(x, y)), s, t, room)
  {
    PeerDownRooms(c.nodes[x], y, room, s);
    PeerDownRooms(c.nodes[y], x, room, s);
  }

  lemma PeerDownRooms(n: Node, p: int, room: Text, s: int)
    ensures PeerDownTables(n, p).Local(room) == n.Local(room)
    ensures s != p ==> (s in PeerDownTables(n, p).Remote(room) <==> s in n.Remote(room))
  {
  }

  lemma LinkUpMoves(c: Cluster, x: int, y: int, h: Handle, s: int, t: int, room: Text)
    requires Enabled(c, LinkUp(x, y, h))
    requires s in c.nodes && t in c.nodes && s != t
    ensures RouteMoves(c, Tables(c, LinkUp(x, y, h)), s, t, room)
  {
    LinkUpKeepsRooms(c, x, y, h, s, t, room);
    LinkUpKeepsRooms(c, x, y, h, t, t, room);
  }

  lemma LinkUpKeepsRooms(c: Cluster, x: int, y: int, h: Handle, z: int, t: int, room: Text)
    requires Enabled(c, LinkUp(x, y, h)) && z in c.nodes
    ensures var k := Tables(c, LinkUp(x, y, h)).nodes[z];
            k.Local(room) == c.nodes[z].Local(room) && k.Remote(room) == c.nodes[z].Remote(room) &&
            k.Queue(t) == c.nodes[z].Queue(t)
  {
    PromoteRooms(c.nodes[y], h, x, room, t);
    PromoteRooms(c.nodes[x], h, y, room, t);
  }

  lemma PromoteRooms(n: Node, h: Handle, p: int, room: Text, t: int)
    ensures PeerUp(n, p).Local(room) == n.Local(room) && PeerUp(n, p).Remote(room) == n.Remote(room)
    ensures PeerUp(n, p).Queue(t) == n.Queue(t)
    ensures h in n.sessions ==> Promote(n, h, p).Local(room) == n.Local(room) &&
                                Promote(n, h, p).Remote(room) == n.Remote(room) &&
                                Promote(n, h, p).Queue(t) == n.Queue(t)
  {
  }

  /** Whatever happens in the cluster while the link from `s` to `t` stays up, the
      entry of `s` at `t`, with what is under way, is either untouched along with the
      truth at `s`, or set right. */
  lemma StepMoves(c: Cluster, l: Label, s: int, t: int, room: Text)
    requires Sound(c) && Honest(c) && Enabled(c, l) && !IsLinkDown(l, s, t)
    requires s in c.nodes && t in c.nodes && s != t && t in c.nodes[s].up
    ensures t in Step(c, l).nodes[s].up && RouteMoves(c, Step(c, l), s, t, room)
  {
    StepTables(c, l);
    TablesMove(c, l, s, t, room);
    SameMoves(c, Step(c, l), Tables(c, l), s, t, room);
  }

  lemma SameMoves(c: Cluster, a: Cluster, b: Cluster, s: int, t: int, room: Text)
    requires SameTables(a, b) && c.nodes.Keys == b.nodes.Keys && s in c.nodes && t in c.nodes
    requires t in b.nodes[s].up && RouteMoves(c, b, s, t, room)
    ensures t in a.nodes[s].up && RouteMoves(c, a, s, t, room)
  {
    assert Core(a.nodes[s]) == Core(b.nodes[s]);
    assert Core(a.nodes[t]) == Core(b.nodes[t]);
  }

  lemma TablesMove(c: Cluster, l: Label, s: int, t: int, room: Text)
    requires Sound(c) && Honest(c) && Enabled(c, l) && !IsLinkDown(l, s, t)
    requires s in c.nodes && t in c.nodes && s != t && t in c.nodes[s].up
    ensures t in Tables(c, l).nodes[s].up && RouteMoves(c, Tables(c, l), s, t, room)
  {
    TablesUp(c, l, s, t);
    match l
    case Accept(x, h) =>
    case Ask(x, h, q) => AskMoves(c, x, h, q, s, t, room);
    case HangUp(x, h) => HangUpMoves(c, x, h, s, t, room);
    case Deliver(x, y) =>
      if x == s && y == t { DeliverHere(c, s, t, room); } else { DeliverElsewhere(c, x, y, s, t, room); }
    case Tick(x, y) => TickMoves(c, x, y, s, t, room);
    case LinkDown(x, y) => LinkDownMoves(c, x, y, s, t, room);
    case LinkUp(x, y, h) => LinkUpMoves(c, x, y, h, s, t, room);
  }

  /** Links change state only by the steps named after that. */
  lemma TablesUp(c: Cluster, l: Label, s: int, t: int)
    requires Enabled(c, l) && !IsLinkDown(l, s, t)
    requires s in c.nodes && t in c.nodes && s != t && t in c.nodes[s].up
    ensures t in Tables(c, l).nodes[s].up
  {
    if l.Ask? { TablesAfterUp(c.nodes[l.s], l.h, l.q); }
  }

  lemma TablesAfterUp(n: Node, h: Handle, q: Request)
    requires h in n.sessions
    ensures TablesAfter(n, h, q).up == n.up
  {
  }

  // Honesty is kept.

  lemma EmitHonest(n: Node, k: Node, e: Emission)
    requires HonestNode(n) && k.out == n.out && k.id == n.id
    requires e.To? && (e.m.RoomSync? || e.m.ReplicateUser?) ==> e.m.server == n.id
    ensures HonestNode(Emit(k, e))
  {
  }

  lemma PlainHonest(n: Node, t: int, m: Message)
    requires HonestNode(n)
    ensures n.Queue(t) != [] ==> HonestNode(Pop(n, t))
    ensures HonestNode(TablesAfterReceive(n, t, m))
    ensures HonestNode(PeerDownTables(n, t)) && HonestNode(PeerUp(n, t))
    ensures HonestNode(Spread(n, {t} * n.up, Heartbeat))
  {
    EmitHonest(n, n, To({t} * n.up, Heartbeat));
    EmitHonest(n, n, To({t} * n.up, HeartbeatAck));
  }

  lemma TablesHonest(c: Cluster, l: Label)
    requires Sound(c) && Honest(c) && Enabled(c, l)
    ensures Honest(Tables(c, l))
  {
    var n := c.nodes[l.s];
    match l
    case Accept(s, h) =>
    case Ask(s, h, q) =>
      TablesAfterSane(n, h, q);
      EmitHonest(n, TablesAfter(n, h, q), EmissionOf(n, h, q));
    case HangUp(s, h) => EmitHonest(n, TablesAfterHangup(n, h), EmissionOfHangup(n, h));
    case Deliver(s, t) =>
      PlainHonest(n, t, Heartbeat);
      PlainHonest(c.nodes[t], s, n.Queue(t)[0]);
      HonestPair(c, s, t, Pop(n, t), TablesAfterReceive(c.nodes[t], s, n.Queue(t)[0]));
    case Tick(s, t) => PlainHonest(n, t, Heartbeat);
    case LinkDown(s, t) =>
      PlainHonest(n, t, Heartbeat);
      PlainHonest(c.nodes[t], s, Heartbeat);
      HonestPair(c, s, t, PeerDownTables(n, t), PeerDownTables(c.nodes[t], s));
    case LinkUp(s, t, h) =>
      PlainHonest(n, t, Heartbeat);
      PromoteHonest(c.nodes[t], h, s);
      HonestPair(c, s, t, PeerUp(n, t), Promote(c.nodes[t], h, s));
  }

  lemma HonestPair(c: Cluster, s: int, t: int, a: Node, b: Node)
    requires Honest(c) && HonestNode(a) && HonestNode(b)
    ensures Honest(Cluster(c.nodes[s := a][t := b]))
  {
  }

  lemma PromoteHonest(n: Node, h: Handle, p: int)
    requires HonestNode(n) && h in n.sessions
    ensures HonestNode(Promote(n, h, p))
  {
  }

  lemma StepHonest(c: Cluster, l: Label)
    requires Sound(c) && Honest(c) && Enabled(c, l)
    ensures Honest(Step(c, l))
  {
    StepTables(c, l);
    TablesHonest(c, l);
    SameHonest(Step(c, l), Tables(c, l));
  }

  lemma SameHonest(a: Cluster, b: Cluster)
    requires SameTables(a, b) && Honest(b)
    ensures Honest(a)
  {
    forall s | s in a.nodes
      ensures HonestNode(a.nodes[s])
    {
      assert Core(a.nodes[s]) == Core(b.nodes[s]);
    }
  }

  // Links that are down.

  /** Nothing under way from `s` to `t`, and `s` listed nowhere at `t`. */
  ghost predicate Clear(c: Cluster, s: int, t: int)
    requires s in c.nodes && t in c.nodes
  {
    c.nodes[s].Queue(t) == [] && forall room :: s !in c.nodes[t].Remote(room)
  }

  lemma ClearView(c: Cluster, s: int, t: int, room: Text)
    requires s in c.nodes && t in c.nodes && Clear(c, s, t)
    ensures !RouteView(c, s, t, room)
  {
  }

  lemma TablesClear(c: Cluster, l: Label, s: int, t: int)
    requires Sound(c) && Honest(c) && Enabled(c, l) && s in c.nodes && t in c.nodes && s != t
    requires t !in c.nodes[s].up && Clear(c, s, t)
    ensures Clear(Tables(c, l), s, t)
  {
    forall room
      ensures s !in Tables(c, l).nodes[t].Remote(room)
    {
      StillUnlisted(c, l, s, t, room);
    }
    QuietLink(c, l, s, t);
  }

  lemma DeliverUnlisted(c: Cluster, x: int, y: int, s: int, t: int, room: Text)
    requires Honest(c) && Enabled(c, Deliver(x, y)) && s in c.nodes && t in c.nodes && s != t
    requires c.nodes[x].id == x && Clear(c, s, t)
    ensures s !in Tables(c, Deliver(x, y)).nodes[t].Remote(room)
  {
    var m := c.nodes[x].Queue(y)[0];
    assert m in c.nodes[x].Queue(y);
    assert HonestNode(c.nodes[x]) && y in c.nodes[x].out;
    assert s !in c.nodes[t].Remote(room);
    ReceiveRooms(c.nodes[y], x, m, room, s);
  }

  lemma StillUnlisted(c: Cluster, l: Label, s: int, t: int, room: Text)
    requires Sound(c) && Honest(c) && Enabled(c, l) && s in c.nodes && t in c.nodes && s != t
    requires t !in c.nodes[s].up && Clear(c, s, t)
    ensures s !in Tables(c, l).nodes[t].Remote(room)
  {
    match l
    case Ask(x, h, q) => AskRooms(c.nodes[x], h, q, room);
    case Deliver(x, y) => DeliverUnlisted(c, x, y, s, t, room);
    case LinkDown(x, y) =>
      PeerDownRooms(c.nodes[x], y, room, s);
      PeerDownRooms(c.nodes[y], x, room, s);
    case LinkUp(x, y, h) => LinkUpKeepsRooms(c, x, y, h, t, t, room);
    case _ =>
  }

  lemma TablesAfterOut(n: Node, h: Handle, q: Request)
    requires h in n.sessions
    ensures TablesAfter(n, h, q).out == n.out
    ensures EmissionOf(n, h, q).To? ==> EmissionOf(n, h, q).targets <= n.up
  {
  }

  lemma EmitQueue(n: Node, k: Node, e: Emission, t: int)
    requires k.out == n.out && (e.To? ==> t !in e.targets)
    ensures Emit(k, e).Queue(t) == n.Queue(t)
  {
  }

  /** Nothing is put on a link that is down. */
  lemma QuietLink(c: Cluster, l: Label, s: int, t: int)
    requires Enabled(c, l) && s in c.nodes && t in c.nodes && s != t
    requires t !in c.nodes[s].up && c.nodes[s].Queue(t) == []
    ensures Tables(c, l).nodes[s].Queue(t) == []
  {
    var n := c.nodes[s];
    match l
    case Accept(x, h) =>
    case Ask(x, h, q) =>
      TablesAfterOut(c.nodes[x], h, q);
      if x == s { EmitQueue(n, TablesAfter(n, h, q), EmissionOf(n, h, q), t); }
    case HangUp(x, h) =>
      if x == s { EmitQueue(n, TablesAfterHangup(n, h), EmissionOfHangup(n, h), t); }
    case Deliver(x, y) =>
      if y == s { EmitQueue(n, n, To({x} * n.up, HeartbeatAck), t); }
    case Tick(x, y) =>
      if x == s { EmitQueue(n, n, To({y} * n.up, Heartbeat), t); }
    case LinkDown(x, y) =>
    case LinkUp(x, y, h) => LinkUpKeepsRooms(c, x, y, h, s, t, []);
  }

  lemma LinkDownClears(c: Cluster, x: int, y: int)
    requires Sound(c) && Enabled(c, LinkDown(x, y))
    ensures Clear(Tables(c, LinkDown(x, y)), x, y) && Clear(Tables(c, LinkDown(x, y)), y, x)
  {
  }

  lemma SameClear(a: Cluster, b: Cluster, s: int, t: int)
    requires SameTables(a, b) && s in a.nodes && t in a.nodes && Clear(b, s, t)
    ensures Clear(a, s, t)
  {
    assert Core(a.nodes[s]) == Core(b.nodes[s]) && Core(a.nodes[t]) == Core(b.nodes[t]);
    assert forall room :: a.nodes[t].Remote(room) == b.nodes[t].Remote(room);
  }

  lemma StepClear(c: Cluster, l: Label, s: int, t: int)
    requires Sound(c) && Honest(c) && Enabled(c, l) && s in c.nodes && t in c.nodes && s != t
    requires IsLinkDown(l, s, t) || (t !in c.nodes[s].up && Clear(c, s, t))
    ensures Clear(Step(c, l), s, t)
  {
    if IsLinkDown(l, s, t) { LinkDownClears(c, l.s, l.t); } else { TablesClear(c, l, s, t); }
    StepTables(c, l);
    SameClear(Step(c, l), Tables(c, l), s, t);
  }

  // Whole runs.

  /** Every peer listed, once what is under way has arrived, has local members. */
  ghost predicate NoPhantoms(c: Cluster) {
    forall s <- c.nodes, t <- c.nodes, room | s != t && RouteView(c, s, t, room) :: Holds(c, s, room)
  }

  /** A peer is listed, once what is under way has arrived, exactly when it has members. */
  ghost predicate Converging(c: Cluster) {
    forall s <- c.nodes, t <- c.nodes, room | s != t :: RouteView(c, s, t, room) == Holds(c, s, room)
  }

  ghost predicate DownIsClear(c: Cluster) {
    forall s <- c.nodes, t <- c.nodes | s != t && t !in c.nodes[s].up :: Clear(c, s, t)
  }

  predicate LinksStay(c: Cluster, l: Label) {
    !l.LinkDown?
  }

  predicate AnyStep(c: Cluster, l: Label) {
    true
  }

  lemma InitialRoutes(c: Cluster)
    requires Initial(c)
    ensures Honest(c) && Converging(c) && NoPhantoms(c) && DownIsClear(c)
  {
    forall s <- c.nodes, t <- c.nodes | s != t
      ensures Clear(c, s, t)
    {
      assert t in c.nodes[s].out;
    }
    forall s <- c.nodes, t <- c.nodes, room | s != t
      ensures RouteView(c, s, t, room) == false && !Holds(c, s, room)
    {
      ClearView(c, s, t, room);
    }
  }

  /** What a step does to all entries at once: each is moved correctly, or its link is
      clear. */
  ghost predicate AllMove(c: Cluster, d: Cluster)
    requires c.nodes.Keys == d.nodes.Keys
  {
    forall s <- c.nodes, t <- c.nodes, room | s != t :: Clear(d, s, t) || RouteMoves(c, d, s, t, room)
  }

  lemma StepEntry(c: Cluster, l: Label, s: int, t: int, room: Text)
    requires Sound(c) && Honest(c) && DownIsClear(c) && Enabled(c, l)
    requires s in c.nodes && t in c.nodes && s != t
    ensures Clear(Step(c, l), s, t) || (t in Step(c, l).nodes[s].up && RouteMoves(c, Step(c, l), s, t, room))
  {
    if t in c.nodes[s].up && !IsLinkDown(l, s, t) {
      StepMoves(c, l, s, t, room);
    } else {
      StepClear(c, l, s, t);
    }
  }

  lemma StepAllMove(c: Cluster, l: Label)
    requires Sound(c) && Honest(c) && DownIsClear(c) && Enabled(c, l)
    ensures AllMove(c, Step(c, l))
  {
    forall s, t, room | s in c.nodes && t in c.nodes && s != t
      ensures Clear(Step(c, l), s, t) || RouteMoves(c, Step(c, l), s, t, room)
    {
      StepEntry(c, l, s, t, room);
    }
  }

  lemma StepDownIsClear(c: Cluster, l: Label)
    requires Sound(c) && Honest(c) && DownIsClear(c) && Enabled(c, l)
    ensures DownIsClear(Step(c, l))
  {
    forall s, t | s in c.nodes && t in c.nodes && s != t
      ensures Clear(Step(c, l), s, t) || t in Step(c, l).nodes[s].up
    {
      StepEntry(c, l, s, t, []);
    }
  }

  lemma MovesNoPhantoms(c: Cluster, d: Cluster)
    requires c.nodes.Keys == d.nodes.Keys && AllMove(c, d) && NoPhantoms(c)
    ensures NoPhantoms(d)
  {
    forall s <- d.nodes, t <- d.nodes, room | s != t && RouteView(d, s, t, room)
      ensures Holds(d, s, room)
    {
      assert Clear(d, s, t) || RouteMoves(c, d, s, t, room);
      if Clear(d, s, t) { ClearView(d, s, t, room); }
    }
  }

  /** Under any number of link losses and reconnections no run ever leaves a server
      listed, or about to be listed, for a room in which it has no members. */
  lemma {:induction false} NoPhantomRoutes(c: Cluster, ls: seq<Label>)
    requires Sound(c) && Honest(c) && DownIsClear(c) && NoPhantoms(c)
    requires Run(AnyStep, c, ls)
    ensures var d := End(AnyStep, c, ls);
            Sound(d) && Honest(d) && DownIsClear(d) && NoPhantoms(d)
    decreases |ls|
  {
    if ls != [] {
      StepSound(c, ls[0]);
      StepHonest(c, ls[0]);
      StepAllMove(c, ls[0]);
      StepDownIsClear(c, ls[0]);
      MovesNoPhantoms(c, Step(c, ls[0]));
      NoPhantomRoutes(Step(c, ls[0]), ls[1..]);
    }
  }

  /** While links stay up from the start, under any joins, leaves, disconnects and
      repeated notices, tables plus packets under way say exactly which servers have
      members. */
  lemma {:induction false} RoomRoutesConverge(c: Cluster, ls: seq<Label>)
    requires Sound(c) && Honest(c) && FullMesh(c) && Converging(c)
    requires Run(LinksStay, c, ls)
    ensures var d := End(LinksStay, c, ls);
            Sound(d) && Honest(d) && FullMesh(d) && Converging(d)
    decreases |ls|
  {
    if ls != [] {
      StepSound(c, ls[0]);
      StepHonest(c, ls[0]);
      StepConverging(c, ls[0]);
      RoomRoutesConverge(Step(c, ls[0]), ls[1..]);
    }
  }

  /** The link between `s` and `t` stays up; others may fail and come back. */
  predicate KeepsLink(s: int, t: int, c: Cluster, l: Label) {
    !IsLinkDown(l, s, t)
  }

  /** The same for one link, whatever happens to the others. */
  ghost predicate RouteConverging(c: Cluster, s: int, t: int) {
    && s in c.nodes && t in c.nodes && s != t && t in c.nodes[s].up
    && forall room :: RouteView(c, s, t, room) == Holds(c, s, room)
  }

  lemma {:induction false} OneRouteConverges(c: Cluster, ls: seq<Label>, s: int, t: int)
    requires Sound(c) && Honest(c) && RouteConverging(c, s, t)
    requires Run((d, l) => KeepsLink(s, t, d, l), c, ls)
    ensures RouteConverging(End((d, l) => KeepsLink(s, t, d, l), c, ls), s, t)
    decreases |ls|
  {
    if ls != [] {
      StepSound(c, ls[0]);
      StepHonest(c, ls[0]);
      StepRoute(c, ls[0], s, t);
      OneRouteConverges(Step(c, ls[0]), ls[1..], s, t);
    }
  }

  lemma StepRoute(c: Cluster, l: Label, s: int, t: int)
    requires Sound(c) && Honest(c) && RouteConverging(c, s, t) && Enabled(c, l) && !IsLinkDown(l, s, t)
    ensures RouteConverging(Step(c, l), s, t)
  {
    StepMoves(c, l, s, t, []);
    forall room
      ensures RouteView(Step(c, l), s, t, room) == Holds(Step(c, l), s, room)
    {
      StepMoves(c, l, s, t, room);
    }
  }

  lemma StepConverging(c: Cluster, l: Label)
    requires Sound(c) && Honest(c) && FullMesh(c) && Converging(c)
    requires Enabled(c, l) && LinksStay(c, l)
    ensures FullMesh(Step(c, l)) && Converging(Step(c, l))
  {
    StepSound(c, l);
    forall s, t, room | s in c.nodes && t in c.nodes && s != t
      ensures t in Step(c, l).nodes[s].up && RouteMoves(c, Step(c, l), s, t, room)
    {
      StepUpMoves(c, l, s, t, room);
    }
    SoundLinks(Step(c, l));
    MovesConverging(c, Step(c, l));
  }

  lemma StepUpMoves(c: Cluster, l: Label, s: int, t: int, room: Text)
    requires Sound(c) && Honest(c) && FullMesh(c) && Enabled(c, l) && LinksStay(c, l)
    requires s in c.nodes && t in c.nodes && s != t
    ensures t in Step(c, l).nodes[s].up && RouteMoves(c, Step(c, l), s, t, room)
  {
    StepMoves(c, l, s, t, room);
  }

  lemma SoundLinks(d: Cluster)
    requires Sound(d)
    ensures forall s <- d.nodes :: d.nodes[s].up <= d.nodes.Keys - {s}
  {
  }

  lemma MovesConverging(c: Cluster, d: Cluster)
    requires c.nodes.Keys == d.nodes.Keys && Converging(c)
    requires forall s <- d.nodes :: d.nodes[s].up <= d.nodes.Keys - {s}
    requires forall s <- c.nodes, t <- c.nodes, room | s != t ::
               t in d.nodes[s].up && RouteMoves(c, d, s, t, room)
    ensures FullMesh(d) && Converging(d)
  {
    forall s <- d.nodes
      ensures d.nodes[s].up == d.nodes.Keys - {s}
    {
      forall t <- d.nodes.Keys - {s}
        ensures t in d.nodes[s].up
      {
        assert RouteMoves(c, d, s, t, []);
      }
    }
    forall s <- d.nodes, t <- d.nodes, room | s != t
      ensures RouteView(d, s, t, room) == Holds(d, s, room)
    {
      assert RouteMoves(c, d, s, t, room);
      assert RouteView(c, s, t, room) == Holds(c, s, room);
    }
  }

  /** A quiet cluster whose links stayed up lists exactly the servers with members. */
  lemma QuietRoutesExact(c: Cluster, ls: seq<Label>, s: int, t: int, room: Text)
    requires Initial(c) && FullMesh(c) && Run(LinksStay, c, ls) && s in c.nodes && t in c.nodes && s != t
    ensures var d := End(LinksStay, c, ls);
            d.nodes.Keys == c.nodes.Keys &&
            (d.nodes[s].Queue(t) == [] ==> (s in d.nodes[t].Remote(room) <==> d.nodes[s].Local(room) != {}))
  {
    InitialRoutes(c);
    RoomRoutesConverge(c, ls);
    EndKeys(LinksStay, c, ls);
    var d := End(LinksStay, c, ls);
    assert RouteView(d, s, t, room) == Holds(d, s, room);
  }

  lemma {:induction false} EndKeys(rule: (Cluster, Label) -> bool, c: Cluster, ls: seq<Label>)
    requires Run(rule, c, ls)
    ensures End(rule, c, ls).nodes.Keys == c.nodes.Keys
    decreases |ls|
  {
    if ls != [] { EndKeys(rule, Step(c, ls[0]), ls[1..]); }
  }

  /** A link that comes back is right, at either end, for exactly the rooms without
      members at the other: nothing is announced again. */
  lemma LinkUpRoutes(c: Cluster, s: int, t: int, h: Handle, room: Text)
    requires Sound(c) && Honest(c) && DownIsClear(c) && Enabled(c, LinkUp(s, t, h))
    ensures var d := Step(c, LinkUp(s, t, h));
            (RouteView(d, s, t, room) == Holds(d, s, room) <==> !Holds(c, s, room)) &&
            (RouteView(d, t, s, room) == Holds(d, t, room) <==> !Holds(c, t, room))
  {
    PromoteRooms(c.nodes[t], h, s, room, s);
    PromoteRooms(c.nodes[s], h, t, room, t);
    ClearView(c, s, t, room);
    ClearView(c, t, s, room);
  }

  /** It is right again for a room as soon as its first member comes or its last goes. */
  lemma ChangeRepairsRoute(c: Cluster, l: Label, s: int, t: int, room: Text)
    requires Sound(c) && Honest(c) && Enabled(c, l) && !IsLinkDown(l, s, t)
    requires s in c.nodes && t in c.nodes && s != t && t in c.nodes[s].up
    requires Holds(c, s, room) != Holds(Step(c, l), s, room) || RouteView(c, s, t, room) == Holds(c, s, room)
    ensures RouteView(Step(c, l), s, t, room) == Holds(Step(c, l), s, room)
  {
    StepMoves(c, l, s, t, room);
  }
}