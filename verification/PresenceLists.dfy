/** What clients know of who is online: after every step of every run, whoever is logged
    in has been sent the list of all users that the server knows of. */
module PresenceLists {
  import opened Bytes
  import opened Messages
  import opened Nodes
  import opened NodeFacts
  import opened Cluster
  import opened RoomRoutes
  import opened Replies

  /** The list of users online that a log ends with. */
  function LastPresence(log: seq<ClientMessage>): Option<set<Text>> {
    if log == [] then None
    else
      match log[|log| - 1]
      case Presence(online) => Some(online)
      case _ => LastPresence(log[..|log| - 1])
  }

  predicate NoPresence(log: seq<ClientMessage>) {
    forall m <- log :: !m.Presence?
  }

  lemma {:induction false} PresenceStays(log: seq<ClientMessage>, more: seq<ClientMessage>)
    requires NoPresence(more)
    ensures LastPresence(log + more) == LastPresence(log)
    decreases |more|
  {
    if more == [] {
      assert log + more == log;
    } else {
      var most := more[..|more| - 1];
      assert more[|more| - 1] in more;
      assert (log + more)[..|log + more| - 1] == log + most;
      PresenceStays(log, most);
    }
  }

  lemma PresenceNow(log: seq<ClientMessage>, online: set<Text>)
    ensures LastPresence(log + [Presence(online)]) == Some(online)
  {
  }

  /** Who is logged in has last been sent exactly the users in the directory. */
  ghost predicate Current(n: Node) {
    forall g | LoggedIn(n, g) :: LastPresence(Log(n, g)) == Some(n.users.Keys)
  }

  predicate LoggedIn(n: Node, g: Handle) {
    g in n.live && g in n.sessions && n.sessions[g].authenticated
  }

  ghost predicate AllCurrent(c: Cluster) {
    forall s <- c.nodes :: Current(c.nodes[s])
  }

  // One server.

  /** From `n` to `k` nobody logs in, the directory stays, and nobody is sent a list. */
  lemma NothingNew(n: Node, k: Node)
    requires Current(n) && k.users == n.users
    requires forall g | LoggedIn(k, g) ::
      LoggedIn(n, g) && exists more :: Log(k, g) == Log(n, g) + more && NoPresence(more)
    ensures Current(k)
  {
    forall g | LoggedIn(k, g)
      ensures LastPresence(Log(k, g)) == Some(k.users.Keys)
    {
      var more :| Log(k, g) == Log(n, g) + more && NoPresence(more);
      PresenceStays(Log(n, g), more);
      assert LoggedIn(n, g);
    }
  }

  /** From `n` to `k` everybody who is logged in is sent the list of users last. */
  lemma AllTold(n: Node, k: Node)
    requires forall g | LoggedIn(k, g) ::
      g in n.sessions && exists more :: Log(k, g) == Log(n, g) + more + [Presence(k.users.Keys)]
    ensures Current(k)
  {
    forall g | LoggedIn(k, g)
      ensures LastPresence(Log(k, g)) == Some(k.users.Keys)
    {
      var more :| Log(k, g) == Log(n, g) + more + [Presence(k.users.Keys)];
      PresenceNow(Log(n, g) + more, k.users.Keys);
    }
  }

  lemma SameByCore(k: Node, e: Node, g: Handle)
    requires Core(k) == Core(e)
    ensures k.users == e.users && k.live == e.live && (LoggedIn(k, g) <==> LoggedIn(e, g))
  {
    assert k.users == Core(k).users == e.users && k.live == Core(k).live == e.live;
    assert k.sessions.Keys == Core(k).sessions.Keys == e.sessions.Keys;
    if g in k.sessions {
      SameSessions(k, e, g);
    }
  }

  lemma TablesClients(n: Node, h: Handle, q: Request, g: Handle)
    requires h in n.sessions && !q.Login?
    ensures var e := Emit(TablesAfter(n, h, q), EmissionOf(n, h, q));
            e.users == n.users && e.live == n.live && (LoggedIn(e, g) <==> LoggedIn(n, g))
  {
  }

  /** What a request other than a login leaves alone. */
  lemma SameClients(n: Node, h: Handle, q: Request, g: Handle)
    requires Sane(n) && h in n.sessions && WellFormed(q) && !q.Login?
    ensures var k := HandleRequest(n, h, q, {}); k.users == n.users && (LoggedIn(k, g) <==> LoggedIn(n, g))
  {
    RequestCore(n, h, q);
    TablesClients(n, h, q, g);
    SameByCore(HandleRequest(n, h, q, {}), Emit(TablesAfter(n, h, q), EmissionOf(n, h, q)), g);
  }

  /** Nor does it tell anybody who is online. */
  lemma RequestTells(n: Node, h: Handle, q: Request, g: Handle)
    requires Sane(n) && h in n.sessions && g in n.sessions && WellFormed(q) && !q.Login?
    ensures var k := HandleRequest(n, h, q, {});
            g in k.sessions && exists more :: Log(k, g) == Log(n, g) + more && NoPresence(more)
  {
    if !n.sessions[h].authenticated {
      StrangerReplies(n, h, q, {}, g);
    } else {
      match q
      case Private(u, x) => PrivateTells(n, h, u, x, g);
      case RoomText(r, x) => RoomReplies(n, h, r, x, g);
      case Broadcast(x) => BroadcastReplies(n, h, x, g);
      case Join(r) => JoinTells(n, h, r, g);
      case Leave(r) => LeaveTells(n, h, r, g);
      case Create(r) => CreateReplies(n, h, r, g);
      case Dropped => assert Log(n, g) == Log(n, g) + [];
    }
  }

  lemma PrivateTells(n: Node, h: Handle, u: Text, text: Text, g: Handle)
    requires 0 < n.id && h in n.sessions && g in n.sessions && n.sessions[h].authenticated
    ensures var k := HandleRequest(n, h, Private(u, text), {});
            g in k.sessions && exists more :: Log(k, g) == Log(n, g) + more && NoPresence(more)
  {
    PrivateReplies(n, h, u, text, g);
    var more := (if n.Location(u) == Some(n.id) && u in n.byName && n.byName[u] == g
                 then [PrivateMessage(n.sessions[h].name, text)] else []) +
      if g == h then PrivateAnswer(n, u) else [];
    assert Log(HandleRequest(n, h, Private(u, text), {}), g) == Log(n, g) + more;
  }

  lemma JoinTells(n: Node, h: Handle, room: Text, g: Handle)
    requires h in n.sessions && g in n.sessions && n.sessions[h].authenticated
    ensures var k := HandleRequest(n, h, Join(room), {});
            g in k.sessions && exists more :: Log(k, g) == Log(n, g) + more && NoPresence(more)
  {
    JoinReplies(n, h, room, g);
    var user := n.sessions[h].name;
    var more := if room == [] then [] else
      (if g == h then [Status(Joined(room))] else []) +
      Copies(Status(Entered(user, room)), |NamesOf(n, n.Local(room) + {user}, g)|);
    assert Log(HandleRequest(n, h, Join(room), {}), g) == Log(n, g) + more;
  }

  lemma LeaveTells(n: Node, h: Handle, room: Text, g: Handle)
    requires h in n.sessions && g in n.sessions && n.sessions[h].authenticated
    ensures var k := HandleRequest(n, h, Leave(room), {});
            g in k.sessions && exists more :: Log(k, g) == Log(n, g) + more && NoPresence(more)
  {
    LeaveReplies(n, h, room, g);
    var user := n.sessions[h].name;
    var more := if room == [] || room !in n.sessions[h].rooms then [] else
      (if g == h then [Status(Left(room))] else []) +
      Copies(Status(Departed(user, room)), |NamesOf(n, n.Local(room) - {user}, g)|);
    assert Log(HandleRequest(n, h, Leave(room), {}), g) == Log(n, g) + more;
  }

  lemma AskCurrent(n: Node, h: Handle, q: Request)
    requires Sane(n) && Current(n) && h in n.live && h in n.sessions && WellFormed(q)
    ensures Current(HandleRequest(n, h, q, {}))
  {
    if q.Login? {
      LoginCurrent(n, h, q.name);
    } else {
      var k := HandleRequest(n, h, q, {});
      SameClients(n, h, q, h);
      forall g | LoggedIn(k, g)
        ensures LoggedIn(n, g) && exists more :: Log(k, g) == Log(n, g) + more && NoPresence(more)
      {
        SameClients(n, h, q, g);
        RequestTells(n, h, q, g);
      }
      NothingNew(n, k);
    }
  }

  lemma LoginTables(n: Node, h: Handle, name: Text, g: Handle)
    requires h in n.live && h in n.sessions
    ensures var e := Emit(TablesAfter(n, h, Login(name)), EmissionOf(n, h, Login(name)));
            e.users.Keys == (if Acceptable(n, name) then n.users.Keys + {name} else n.users.Keys) &&
            (LoggedIn(e, g) <==> LoggedIn(n, g) || (Acceptable(n, name) && g == h))
  {
  }

  /** After a login the directory and those logged in are as before, but for the newcomer. */
  lemma LoginClients(n: Node, h: Handle, name: Text, g: Handle)
    requires Sane(n) && h in n.live && h in n.sessions
    ensures var k := HandleRequest(n, h, Login(name), {});
            k.users.Keys == (if Acceptable(n, name) then n.users.Keys + {name} else n.users.Keys) &&
            (LoggedIn(k, g) <==> LoggedIn(n, g) || (Acceptable(n, name) && g == h))
  {
    var q := Login(name);
    RequestCore(n, h, q);
    LoginTables(n, h, name, g);
    SameByCore(HandleRequest(n, h, q, {}), Emit(TablesAfter(n, h, q), EmissionOf(n, h, q)), g);
  }

  lemma LoginCurrent(n: Node, h: Handle, name: Text)
    requires Sane(n) && Current(n) && h in n.live && h in n.sessions
    ensures Current(HandleRequest(n, h, Login(name), {}))
  {
    if Acceptable(n, name) {
      WelcomeCurrent(n, h, name);
    } else {
      RefusalCurrent(n, h, name);
    }
  }

  lemma WelcomeCurrent(n: Node, h: Handle, name: Text)
    requires Sane(n) && h in n.live && h in n.sessions && Acceptable(n, name)
    ensures Current(HandleRequest(n, h, Login(name), {}))
  {
    var k := HandleRequest(n, h, Login(name), {});
    LoginClients(n, h, name, h);
    forall g | LoggedIn(k, g)
      ensures g in n.sessions && exists more :: Log(k, g) == Log(n, g) + more + [Presence(k.users.Keys)]
    {
      LoginClients(n, h, name, g);
      LoginReplies(n, h, name, g);
      var more := if g == h then [LoginAnswer(n, name)] else [];
      assert Log(k, g) == Log(n, g) + more + [Presence(k.users.Keys)];
    }
    AllTold(n, k);
  }

  lemma RefusalCurrent(n: Node, h: Handle, name: Text)
    requires Sane(n) && Current(n) && h in n.live && h in n.sessions && !Acceptable(n, name)
    ensures Current(HandleRequest(n, h, Login(name), {}))
  {
    var k := HandleRequest(n, h, Login(name), {});
    LoginAccepted(n, h, name);
    assert k.users == Core(k).users == Core(n).users == n.users;
    forall g | LoggedIn(k, g)
      ensures LoggedIn(n, g) && exists more :: Log(k, g) == Log(n, g) + more && NoPresence(more)
    {
      LoginClients(n, h, name, g);
      LoginReplies(n, h, name, g);
      var more := if g == h then [LoginAnswer(n, name)] else [];
      assert Log(k, g) == Log(n, g) + more;
    }
    NothingNew(n, k);
  }

  lemma HangupClients(n: Node, h: Handle, g: Handle)
    requires Sane(n) && h in n.live && h in n.sessions
    ensures var k := Hangup(n, h, {});
            k.users == (if n.sessions[h].name == [] then n.users else n.users - {n.sessions[h].name}) &&
            (LoggedIn(k, g) <==> LoggedIn(n, g) && g != h)
  {
    HangupCore(n, h);
    var k, e := Hangup(n, h, {}), Emit(TablesAfterHangup(n, h), EmissionOfHangup(n, h));
    SameByCore(k, e, g);
  }

  lemma HangupCurrent(n: Node, h: Handle)
    requires Sane(n) && Current(n) && h in n.live && h in n.sessions
    ensures Current(Hangup(n, h, {}))
  {
    var k := Hangup(n, h, {});
    HangupClients(n, h, h);
    if n.sessions[h].name == [] {
      forall g | LoggedIn(k, g)
        ensures LoggedIn(n, g) && exists more :: Log(k, g) == Log(n, g) + more && NoPresence(more)
      {
        HangupClients(n, h, g);
        HangupReplies(n, h, g);
      }
      NothingNew(n, k);
    } else {
      forall g | LoggedIn(k, g)
        ensures g in n.sessions && exists more :: Log(k, g) == Log(n, g) + more + [Presence(k.users.Keys)]
      {
        HangupClients(n, h, g);
        HangupReplies(n, h, g);
        assert k.users.Keys == n.users.Keys - {n.sessions[h].name};
        assert Log(k, g) == Log(n, g) + [] + [Presence(k.users.Keys)];
      }
      AllTold(n, k);
    }
  }

  lemma ReceiveClients(n: Node, p: int, m: Message, g: Handle)
    requires Sane(n) && p in n.out
    ensures var k := Receive(n, p, m);
            k.users == TablesAfterReceive(n, p, m).users && (LoggedIn(k, g) <==> LoggedIn(n, g))
  {
    ReceiveCore(n, p, m);
    var k, e := Receive(n, p, m), TablesAfterReceive(n, p, m);
    SameByCore(k, e, g);
  }

  lemma ReceiveCurrent(n: Node, p: int, m: Message)
    requires Sane(n) && Current(n) && p in n.out
    ensures Current(Receive(n, p, m))
  {
    if m.ReplicateUser? {
      NewsCurrent(n, p, m.user, m.server, m.online);
    } else {
      var k := Receive(n, p, m);
      ReceiveClients(n, p, m, 0);
      forall g | LoggedIn(k, g)
        ensures LoggedIn(n, g) && exists more :: Log(k, g) == Log(n, g) + more && NoPresence(more)
      {
        ReceiveClients(n, p, m, g);
        PacketReplies(n, p, m, g);
      }
      NothingNew(n, k);
    }
  }

  lemma NewsCurrent(n: Node, p: int, u: Text, s: int, online: bool)
    requires Sane(n) && p in n.out
    ensures Current(Receive(n, p, ReplicateUser(u, s, online)))
  {
    var k := Receive(n, p, ReplicateUser(u, s, online));
    forall g | LoggedIn(k, g)
      ensures g in n.sessions && exists more :: Log(k, g) == Log(n, g) + more + [Presence(k.users.Keys)]
    {
      ReceiveClients(n, p, ReplicateUser(u, s, online), g);
      NewsReplies(n, p, u, s, online, g);
      assert k.users.Keys == if online then n.users.Keys + {u} else n.users.Keys - {u};
      assert Log(k, g) == Log(n, g) + [] + [Presence(k.users.Keys)];
    }
    AllTold(n, k);
  }

  lemma PeerDownClients(n: Node, p: int, g: Handle)
    requires p in n.up
    ensures var k := PeerDown(n, p);
            k.users == Cut(n, p).users && (LoggedIn(k, g) <==> LoggedIn(n, g))
  {
    PeerDownCore(n, p);
    var k, e := PeerDown(n, p), PeerDownTables(n, p);
    SameByCore(k, e, g);
  }

  lemma PeerDownCurrent(n: Node, p: int)
    requires Current(n)
    ensures Current(PeerDown(n, p))
  {
    if p in n.up {
      var k := PeerDown(n, p);
      forall g | LoggedIn(k, g)
        ensures g in n.sessions && exists more :: Log(k, g) == Log(n, g) + more + [Presence(k.users.Keys)]
      {
        PeerDownClients(n, p, g);
        PeerDownReplies(n, p, g);
        assert k.users.Keys == set u | u in n.users && n.users[u] != p;
        assert Log(k, g) == Log(n, g) + [] + [Presence(k.users.Keys)];
      }
      AllTold(n, k);
    }
  }

  /** A send loop over peers keeps lists current, whatever sockets fail on the way. */
  lemma {:induction false} SendEachCurrent(n: Node, ps: seq<int>, m: Message, broken: set<int>)
    requires Current(n)
    ensures Current(SendEach(n, ps, m, broken))
    decreases |ps|
  {
    if ps != [] {
      SendOneCurrent(n, ps[0], m, broken);
      SendEachCurrent(SendOne(n, ps[0], m, broken), ps[1..], m, broken);
    }
  }

  lemma SendOneCurrent(n: Node, p: int, m: Message, broken: set<int>)
    requires Current(n)
    ensures Current(SendOne(n, p, m, broken))
  {
    if p in n.up {
      if p in broken {
        PeerDownCurrent(n, p);
      } else {
        Untold(n, Send(n, p, m));
      }
    }
  }

  /** Nobody logs in, and those logged in keep their logs. */
  lemma Untold(n: Node, k: Node)
    requires Current(n) && k.users == n.users
    requires forall g | LoggedIn(k, g) :: LoggedIn(n, g) && Log(k, g) == Log(n, g)
    ensures Current(k)
  {
    forall g | LoggedIn(k, g)
      ensures LastPresence(Log(k, g)) == Some(k.users.Keys)
    {
      assert LoggedIn(n, g);
    }
  }

  lemma QuietCurrent(n: Node, p: int)
    requires Current(n)
    ensures n.Queue(p) != [] ==> Current(Pop(n, p))
    ensures Current(Ping(n, p)) && Current(PeerUp(n, p))
  {
    if n.Queue(p) != [] {
      Untold(n, Pop(n, p));
    }
    Untold(n, Ping(n, p));
    Untold(n, PeerUp(n, p));
  }

  lemma AcceptCurrent(n: Node, h: Handle)
    requires Current(n) && h !in n.sessions
    ensures Current(AcceptSession(n, h))
  {
    Untold(n, AcceptSession(n, h));
  }

  lemma PromoteCurrent(n: Node, h: Handle, p: int)
    requires Current(n) && h in n.sessions
    ensures Current(Promote(n, h, p))
  {
    Untold(n, Promote(n, h, p));
  }

  // Whole runs.

  lemma CurrentUpdate(c: Cluster, s: int, k: Node)
    requires AllCurrent(c) && Current(k)
    ensures AllCurrent(Cluster(c.nodes[s := k]))
  {
  }

  lemma StepCurrent(c: Cluster, l: Label)
    requires Sound(c) && AllCurrent(c) && Enabled(c, l)
    ensures AllCurrent(Step(c, l))
  {
    var n := c.nodes[l.s];
    assert Current(n);
    match l
    case Accept(s, h) =>
      AcceptCurrent(n, h);
      CurrentUpdate(c, s, AcceptSession(n, h));
    case Ask(s, h, q) =>
      AskCurrent(n, h, q);
      CurrentUpdate(c, s, HandleRequest(n, h, q, {}));
    case HangUp(s, h) =>
      HangupCurrent(n, h);
      CurrentUpdate(c, s, Hangup(n, h, {}));
    case Deliver(s, t) => DeliverCurrent(c, s, t);
    case Tick(s, t) =>
      QuietCurrent(n, t);
      CurrentUpdate(c, s, Ping(n, t));
    case LinkDown(s, t) =>
      PeerDownCurrent(n, t);
      PeerDownCurrent(c.nodes[t], s);
      CurrentUpdate(c, s, PeerDown(n, t));
      CurrentUpdate(Cluster(c.nodes[s := PeerDown(n, t)]), t, PeerDown(c.nodes[t], s));
    case LinkUp(s, t, h) =>
      QuietCurrent(n, t);
      PromoteCurrent(c.nodes[t], h, s);
      CurrentUpdate(c, s, PeerUp(n, t));
      CurrentUpdate(Cluster(c.nodes[s := PeerUp(n, t)]), t, Promote(c.nodes[t], h, s));
  }

  lemma DeliverCurrent(c: Cluster, s: int, t: int)
    requires Sound(c) && AllCurrent(c) && Enabled(c, Deliver(s, t))
    ensures AllCurrent(Step(c, Deliver(s, t)))
  {
    var n, k := c.nodes[s], c.nodes[t];
    QuietCurrent(n, t);
    CurrentUpdate(c, s, Pop(n, t));
    assert Current(k);
    ReceiveCurrent(k, s, n.Queue(t)[0]);
    CurrentUpdate(Cluster(c.nodes[s := Pop(n, t)]), t, Receive(k, s, n.Queue(t)[0]));
  }

  lemma {:induction false} RunCurrent(c: Cluster, ls: seq<Label>)
    requires Sound(c) && AllCurrent(c) && Run(AnyStep, c, ls)
    ensures AllCurrent(End(AnyStep, c, ls))
    decreases |ls|
  {
    if ls != [] {
      StepSound(c, ls[0]);
      StepCurrent(c, ls[0]);
      RunCurrent(Step(c, ls[0]), ls[1..]);
    }
  }

  /** In every state of every run, links failing and names colliding as they may, the
      last list of users online that a session has been sent, if it is connected and
      logged in, names exactly the users in its server's directory. */
  lemma ListsAreCurrent(c: Cluster, ls: seq<Label>, s: int, g: Handle)
    requires Initial(c) && Run(AnyStep, c, ls) && s in c.nodes
    ensures var d := End(AnyStep, c, ls);
            s in d.nodes &&
            var n := d.nodes[s];
            g in n.live && g in n.sessions && n.sessions[g].authenticated ==>
              LastPresence(n.sessions[g].log) == Some(n.users.Keys)
  {
    assert AllCurrent(c) by {
      assert forall x <- c.nodes :: c.nodes[x].sessions == map[];
    }
    RunCurrent(c, ls);
    EndKeys(AnyStep, c, ls);
    var n := End(AnyStep, c, ls).nodes[s];
    assert Current(n);
    if LoggedIn(n, g) {
      assert LastPresence(Log(n, g)) == Some(n.users.Keys);
    }
  }

  // Sessions that have become links.

  /** The handle is known and no client's any more. */
  predicate Gone(c: Cluster, t: int, h: Handle) {
    t in c.nodes && h in c.nodes[t].sessions && h !in c.nodes[t].live
  }

  lemma TablesGone(c: Cluster, l: Label, t: int, h: Handle)
    requires Gone(c, t, h) && Enabled(c, l)
    ensures Gone(Tables(c, l), t, h)
  {
    match l
    case Ask(s, g, q) => RequestHandles(c.nodes[s], g, q);
    case _ =>
  }

  lemma RequestHandles(n: Node, g: Handle, q: Request)
    requires g in n.sessions
    ensures var k := Emit(TablesAfter(n, g, q), EmissionOf(n, g, q));
            k.live == n.live && k.sessions.Keys == n.sessions.Keys
  {
  }

  lemma StepGone(c: Cluster, l: Label, t: int, h: Handle)
    requires Sound(c) && Gone(c, t, h) && Enabled(c, l)
    ensures Gone(Step(c, l), t, h)
  {
    StepTables(c, l);
    TablesGone(c, l, t, h);
    var n, k := Step(c, l).nodes[t], Tables(c, l).nodes[t];
    assert Core(n) == Core(k);
    assert n.live == Core(n).live == k.live && n.sessions.Keys == Core(n).sessions.Keys == k.sessions.Keys;
  }

  lemma {:induction false} RunGone(c: Cluster, ls: seq<Label>, t: int, h: Handle)
    requires Sound(c) && Gone(c, t, h) && Run(AnyStep, c, ls)
    ensures Gone(End(AnyStep, c, ls), t, h)
    decreases |ls|
  {
    if ls != [] {
      StepSound(c, ls[0]);
      StepGone(c, ls[0], t, h);
      RunGone(Step(c, ls[0]), ls[1..], t, h);
    }
  }

  /** Once a connection has become a link no run ever takes anything from it for a
      client's: no request, no disconnect, no second introduction, no new session. */
  lemma NoClientAnyMore(c: Cluster, s: int, t: int, h: Handle, ls: seq<Label>)
    requires Sound(c) && Enabled(c, LinkUp(s, t, h)) && Run(AnyStep, Step(c, LinkUp(s, t, h)), ls)
    ensures var d := End(AnyStep, Step(c, LinkUp(s, t, h)), ls);
            !Enabled(d, HangUp(t, h)) && !Enabled(d, Accept(t, h)) &&
            (forall q :: !Enabled(d, Ask(t, h, q))) && (forall x :: !Enabled(d, LinkUp(x, t, h)))
  {
    var d := Step(c, LinkUp(s, t, h));
    StepSound(c, LinkUp(s, t, h));
    assert Gone(d, t, h);
    RunGone(d, ls, t, h);
  }

  /** The same after a disconnect. */
  lemma NoClientAfterHangUp(c: Cluster, t: int, h: Handle, ls: seq<Label>)
    requires Sound(c) && Enabled(c, HangUp(t, h)) && Run(AnyStep, Step(c, HangUp(t, h)), ls)
    ensures var d := End(AnyStep, Step(c, HangUp(t, h)), ls);
            !Enabled(d, HangUp(t, h)) && !Enabled(d, Accept(t, h)) &&
            (forall q :: !Enabled(d, Ask(t, h, q))) && (forall x :: !Enabled(d, LinkUp(x, t, h)))
  {
    StepSound(c, HangUp(t, h));
    HangupGone(c.nodes[t], h);
    RunGone(Step(c, HangUp(t, h)), ls, t, h);
  }

  lemma HangupGone(n: Node, h: Handle)
    requires Sane(n) && h in n.live && h in n.sessions
    ensures h !in Hangup(n, h, {}).live && h in Hangup(n, h, {}).sessions
  {
    HangupCore(n, h);
    var k, e := Hangup(n, h, {}), Emit(TablesAfterHangup(n, h), EmissionOfHangup(n, h));
    assert k.live == Core(k).live == e.live && k.sessions.Keys == Core(k).sessions.Keys == e.sessions.Keys;
  }
}
