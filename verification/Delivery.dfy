/** How often a chat message reaches a session. For a session `g` on server `t` the
    copies it has been sent and the packets on their way to `t` are added up; every
    step but the request itself keeps that sum, or lets it shrink. */
module Delivery {
  import opened Bytes
  import opened Messages
  import opened Nodes
  import opened NodeFacts
  import opened Cluster
  import opened Sessions
  import opened Chats
  import opened Sets

  // What logging in once guarantees.

  /** A name leads to a session of that name. */
  ghost predicate NamesMatch(n: Node) {
    forall u <- n.byName :: u != [] && n.byName[u] in n.sessions && n.sessions[n.byName[u]].name == u
  }

  /** Nobody has read anything before logging in. */
  ghost predicate NothingRead(n: Node) {
    forall g, c | g in n.sessions && n.sessions[g].name == [] && IsChat(c) :: Received(n, g, c) == 0
  }

  ghost predicate Tidy(n: Node) {
    Sane(n) && NamesMatch(n) && NothingRead(n)
  }

  ghost predicate AllTidy(c: Cluster) {
    forall s <- c.nodes :: Tidy(c.nodes[s])
  }

  predicate OneLogin(c: Cluster, l: Label) {
    l.Ask? && l.s in c.nodes ==> LogsInOnce(c.nodes[l.s], l.h, l.q)
  }

  /** Readers are logged in; each is due one copy; a private message has no reader but
      its receiver. */
  lemma ReadersAreNamed(n: Node, k: Chat, g: Handle)
    requires Sane(n) && NamesMatch(n)
    ensures Readers(n, k, g) <= 1
    ensures Readers(n, k, g) > 0 ==> g in n.sessions && n.sessions[g].name != []
    ensures k.PrivateChat? && Readers(n, k, g) > 0 ==> n.sessions[g].name == k.receiver
  {
    if k.RoomChat? {
      var names := NamesOf(n, n.Local(k.room), g);
      if names != {} {
        var u := Any(names);
        assert names == {u} by {
          assert forall v <- names :: v == n.sessions[g].name;
        }
      }
    }
  }

  /** Copies of the chat at session `g`; a private message counts where it belongs. */
  function Seen(n: Node, g: Handle, k: Chat): nat {
    if k.PrivateChat? && !(g in n.sessions && n.sessions[g].name == k.receiver) then 0 else Received(n, g, CopyOf(k))
  }

  /** What server `n` contributes to the sum for session `g` on server `t`. */
  function SessionShare(t: int, g: Handle, k: Chat, n: Node): nat {
    (if n.id == t then Seen(n, g, k) else 0) + multiset(n.Queue(t))[Carrier(k)]
  }

  // One server.

  /** What a request adds. */
  function AskAdds(n: Node, h: Handle, q: Request, t: int, g: Handle, k: Chat): nat
    requires h in n.sessions
  {
    if Origin(n, h, q) != Some(k) then 0
    else if n.id == t then LocalReaders(n, k, g)
    else
      match EmissionOf(n, h, q)
      case To(targets, _) => if t in targets then 1 else 0
      case Quiet => 0
  }

  lemma TablesNames(n: Node, h: Handle, q: Request, g: Handle)
    requires Sane(n) && h in n.sessions && LogsInOnce(n, h, q)
    ensures var k := Emit(TablesAfter(n, h, q), EmissionOf(n, h, q));
            k.sessions.Keys == n.sessions.Keys &&
            (g in n.sessions ==> k.sessions[g].name == n.sessions[g].name || n.sessions[g].name == [])
  {
    var k := TablesAfter(n, h, q);
    EmitKeepsSessions(k, EmissionOf(n, h, q));
    match q
    case Login(name) => assert !n.sessions[h].authenticated;
    case Join(room) =>
    case Leave(room) =>
    case _ => assert k == n;
  }

  lemma EmitKeepsSessions(n: Node, e: Emission)
    ensures Emit(n, e).sessions == n.sessions
  {
  }

  lemma SameNames(k: Node, e: Node)
    requires Core(k) == Core(e)
    ensures k.sessions.Keys == e.sessions.Keys
    ensures forall g <- k.sessions :: k.sessions[g].name == e.sessions[g].name
  {
    assert k.sessions.Keys == Core(k).sessions.Keys == Core(e).sessions.Keys == e.sessions.Keys;
    forall g | g in k.sessions
      ensures k.sessions[g].name == e.sessions[g].name
    {
      SameSessions(k, e, g);
    }
  }

  lemma AskNames(n: Node, h: Handle, q: Request, g: Handle)
    requires Sane(n) && h in n.sessions && WellFormed(q) && LogsInOnce(n, h, q)
    ensures var k := HandleRequest(n, h, q, {});
            k.sessions.Keys == n.sessions.Keys &&
            (g in n.sessions ==> k.sessions[g].name == n.sessions[g].name || n.sessions[g].name == [])
  {
    RequestCore(n, h, q);
    TablesNames(n, h, q, g);
    SameNames(HandleRequest(n, h, q, {}), Emit(TablesAfter(n, h, q), EmissionOf(n, h, q)));
  }

  /** Of the chats that read alike, only the one addressed to `g`'s name reaches `g`. */
  lemma OtherChats(n: Node, o: Chat, g: Handle, k: Chat)
    requires Sane(n) && NamesMatch(n) && CopyOf(o) == CopyOf(k) && o != k
    requires k.PrivateChat? ==> g in n.sessions && n.sessions[g].name == k.receiver
    ensures Readers(n, o, g) == 0
  {
    ReadersAreNamed(n, o, g);
  }

  lemma AskSeen(n: Node, h: Handle, q: Request, g: Handle, k: Chat)
    requires Tidy(n) && h in n.sessions && WellFormed(q) && LogsInOnce(n, h, q)
    ensures Seen(HandleRequest(n, h, q, {}), g, k) ==
            Seen(n, g, k) + if Origin(n, h, q) == Some(k) then LocalReaders(n, k, g) else 0
  {
    AskNames(n, h, q, g);
    ReadersAreNamed(n, k, g);
    if g in n.sessions {
      AskReceived(n, h, q, g, CopyOf(k));
      var o := Origin(n, h, q);
      if o.Some? {
        ReadersAreNamed(n, o.value, g);
        if CopyOf(o.value) == CopyOf(k) && o.value != k && (k.PrivateChat? ==> n.sessions[g].name == k.receiver) {
          OtherChats(n, o.value, g, k);
        }
      }
    }
  }

  lemma SpreadShare(n: Node, e: Emission, t: int, k: Chat)
    requires e.To? ==> t in e.targets ==> t in n.out
    ensures multiset(Emit(n, e).Queue(t))[Carrier(k)] ==
            multiset(n.Queue(t))[Carrier(k)] + if e.To? && t in e.targets && e.m == Carrier(k) then 1 else 0
  {
  }

  lemma AskQueue(n: Node, h: Handle, q: Request, t: int, k: Chat)
    requires Sane(n) && h in n.sessions && WellFormed(q)
    ensures multiset(HandleRequest(n, h, q, {}).Queue(t))[Carrier(k)] ==
            multiset(n.Queue(t))[Carrier(k)] +
            if Origin(n, h, q) == Some(k) && EmissionOf(n, h, q).To? && t in EmissionOf(n, h, q).targets then 1 else 0
  {
    RequestCore(n, h, q);
    TablesAfterSane(n, h, q);
    AskCarries(n, h, q, k);
    SpreadShare(TablesAfter(n, h, q), EmissionOf(n, h, q), t, k);
    SameQueue(HandleRequest(n, h, q, {}), Emit(TablesAfter(n, h, q), EmissionOf(n, h, q)), t);
  }

  lemma SameQueue(k: Node, e: Node, t: int)
    requires Core(k) == Core(e)
    ensures k.Queue(t) == e.Queue(t) && k.id == e.id
  {
  }

  /** A request adds its own chat to the sum, and nothing else. */
  lemma AskShare(n: Node, h: Handle, q: Request, t: int, g: Handle, k: Chat)
    requires Tidy(n) && h in n.sessions && WellFormed(q) && LogsInOnce(n, h, q)
    ensures SessionShare(t, g, k, HandleRequest(n, h, q, {})) == SessionShare(t, g, k, n) + AskAdds(n, h, q, t, g, k)
  {
    AskSeen(n, h, q, g, k);
    AskQueue(n, h, q, t, k);
    AskTargets(n, h, q, t);
  }

  lemma AskTargets(n: Node, h: Handle, q: Request, t: int)
    requires Sane(n) && h in n.sessions && WellFormed(q)
    ensures HandleRequest(n, h, q, {}).id == n.id
    ensures n.id == t && EmissionOf(n, h, q).To? ==> t !in EmissionOf(n, h, q).targets
  {
    RequestCore(n, h, q);
    TablesAfterSane(n, h, q);
    SameQueue(HandleRequest(n, h, q, {}), Emit(TablesAfter(n, h, q), EmissionOf(n, h, q)), t);
  }

  /** Logs and names that agree count alike. */
  lemma SeenAlike(n: Node, d: Node, g: Handle, k: Chat)
    requires g in n.sessions <==> g in d.sessions
    requires g in n.sessions ==> n.sessions[g].name == d.sessions[g].name
    requires Received(d, g, CopyOf(k)) == Received(n, g, CopyOf(k))
    ensures Seen(d, g, k) == Seen(n, g, k)
  {
  }

  lemma HangupQueue(n: Node, h: Handle, t: int, k: Chat)
    requires Sane(n) && h in n.live
    ensures Hangup(n, h, {}).id == n.id
    ensures multiset(Hangup(n, h, {}).Queue(t))[Carrier(k)] == multiset(n.Queue(t))[Carrier(k)]
  {
    HangupCore(n, h);
    SpreadShare(TablesAfterHangup(n, h), EmissionOfHangup(n, h), t, k);
    SameQueue(Hangup(n, h, {}), Emit(TablesAfterHangup(n, h), EmissionOfHangup(n, h)), t);
  }

  lemma HangupSeen(n: Node, h: Handle, g: Handle, k: Chat)
    requires Sane(n) && h in n.live
    ensures Seen(Hangup(n, h, {}), g, k) == Seen(n, g, k)
  {
    HangupCore(n, h);
    HangupReceived(n, h, g, CopyOf(k));
    SameNames(Hangup(n, h, {}), Emit(TablesAfterHangup(n, h), EmissionOfHangup(n, h)));
    SeenAlike(n, Hangup(n, h, {}), g, k);
  }

  lemma HangupShare(n: Node, h: Handle, t: int, g: Handle, k: Chat)
    requires Sane(n) && h in n.live
    ensures SessionShare(t, g, k, Hangup(n, h, {})) == SessionShare(t, g, k, n)
  {
    HangupQueue(n, h, t, k);
    HangupSeen(n, h, g, k);
  }

  /** Handling a packet turns it into the copies due. */
  lemma ReceiveShare(n: Node, p: int, m: Message, t: int, g: Handle, k: Chat)
    requires Tidy(n) && p in n.out
    ensures SessionShare(t, g, k, Receive(n, p, m)) ==
            SessionShare(t, g, k, n) + if n.id == t && m == Carrier(k) then Readers(n, k, g) else 0
  {
    ReceiveQueueShare(n, p, m, t, k);
    if n.id == t { ReceiveSeen(n, p, m, g, k); }
  }

  lemma ReceiveQueueShare(n: Node, p: int, m: Message, t: int, k: Chat)
    requires Sane(n) && p in n.out
    ensures Receive(n, p, m).id == n.id
    ensures multiset(Receive(n, p, m).Queue(t))[Carrier(k)] == multiset(n.Queue(t))[Carrier(k)]
  {
    ReceiveCore(n, p, m);
    SameQueue(Receive(n, p, m), TablesAfterReceive(n, p, m), t);
    SpreadShare(n, To({p} * n.up, HeartbeatAck), t, k);
  }

  lemma ReceiveSeen(n: Node, p: int, m: Message, g: Handle, k: Chat)
    requires Tidy(n) && p in n.out
    ensures Seen(Receive(n, p, m), g, k) == Seen(n, g, k) + if m == Carrier(k) then Readers(n, k, g) else 0
  {
    ReceiveCore(n, p, m);
    SameNames(Receive(n, p, m), TablesAfterReceive(n, p, m));
    ReadersAreNamed(n, k, g);
    if g in n.sessions {
      ReceiveReceived(n, p, m, g, CopyOf(k));
      if k.PrivateChat? ==> n.sessions[g].name == k.receiver { GainOfChat(n, m, g, k); }
    }
  }

  /** A packet that is not the chat's carrier brings `g` nothing that counts. */
  lemma GainOfChat(n: Node, m: Message, g: Handle, k: Chat)
    requires Sane(n) && NamesMatch(n) && g in n.sessions
    requires k.PrivateChat? ==> n.sessions[g].name == k.receiver
    ensures Gain(n, m, g, CopyOf(k)) == if m == Carrier(k) then Readers(n, k, g) else 0
  {
    if m.RoutePrivate? && k.PrivateChat? && m != Carrier(k) && CopyOf(k) == PrivateMessage(m.sender, m.text) {
      OtherChats(n, PrivateChat(m.sender, m.receiver, m.text), g, k);
    }
  }

  lemma PopShare(n: Node, y: int, t: int, g: Handle, k: Chat)
    requires n.Queue(y) != []
    ensures SessionShare(t, g, k, n) ==
            SessionShare(t, g, k, Pop(n, y)) + if y == t && n.Queue(y)[0] == Carrier(k) then 1 else 0
  {
    assert n.Queue(y) == [n.Queue(y)[0]] + n.Queue(y)[1..];
  }

  /** What is under way on a link that fails is lost; nothing else is. */
  lemma PeerDownShare(n: Node, p: int, t: int, g: Handle, k: Chat)
    requires Sane(n)
    ensures SessionShare(t, g, k, PeerDown(n, p)) <= SessionShare(t, g, k, n)
    ensures p != t ==> SessionShare(t, g, k, PeerDown(n, p)) == SessionShare(t, g, k, n)
  {
    PeerDownReceived(n, p, g, CopyOf(k));
    PeerDownCore(n, p);
    SameNames(PeerDown(n, p), PeerDownTables(n, p));
    SeenAlike(n, PeerDown(n, p), g, k);
  }

  lemma PingShare(n: Node, p: int, t: int, g: Handle, k: Chat)
    requires Sane(n) && p in n.out
    ensures SessionShare(t, g, k, Ping(n, p)) == SessionShare(t, g, k, n)
  {
    SendOneSpreads(n, p, Heartbeat);
    SpreadShare(n, To({p} * n.up, Heartbeat), t, k);
  }

  lemma AcceptShare(n: Node, h: Handle, t: int, g: Handle, k: Chat)
    requires h !in n.sessions
    ensures SessionShare(t, g, k, AcceptSession(n, h)) == SessionShare(t, g, k, n)
  {
  }

  lemma LinkUpShare(n: Node, h: Handle, p: int, t: int, g: Handle, k: Chat)
    ensures SessionShare(t, g, k, PeerUp(n, p)) == SessionShare(t, g, k, n)
    ensures h in n.sessions ==> SessionShare(t, g, k, Promote(n, h, p)) == SessionShare(t, g, k, n)
  {
  }

  // Tidiness is kept.

  lemma SameMatch(d: Node, e: Node)
    requires Core(d) == Core(e) && NamesMatch(e)
    ensures NamesMatch(d)
  {
    SameNames(d, e);
    assert d.byName == Core(d).byName == e.byName;
  }

  lemma TablesMatch(n: Node, h: Handle, q: Request)
    requires Sane(n) && NamesMatch(n) && h in n.sessions && LogsInOnce(n, h, q)
    ensures NamesMatch(TablesAfter(n, h, q))
  {
    var d := TablesAfter(n, h, q);
    forall u | u in d.byName
      ensures u != [] && d.byName[u] in d.sessions && d.sessions[d.byName[u]].name == u
    {
      if u in n.byName { assert n.sessions[n.byName[u]].name == u; }
    }
  }

  lemma NothingReadKept(n: Node, d: Node)
    requires NothingRead(n) && d.sessions.Keys == n.sessions.Keys
    requires forall g <- d.sessions :: d.sessions[g].name == [] ==> n.sessions[g].name == []
    requires forall g, c | g in d.sessions && d.sessions[g].name == [] && IsChat(c) ::
      Received(d, g, c) == Received(n, g, c)
    ensures NothingRead(d)
  {
    forall g, c | g in d.sessions && d.sessions[g].name == [] && IsChat(c)
      ensures Received(d, g, c) == 0
    {
      assert Received(n, g, c) == 0;
    }
  }

  lemma AskTidy(n: Node, h: Handle, q: Request)
    requires Tidy(n) && h in n.sessions && WellFormed(q) && LogsInOnce(n, h, q)
    ensures Tidy(HandleRequest(n, h, q, {}))
  {
    RequestCore(n, h, q);
    TablesMatch(n, h, q);
    TablesAfterSane(n, h, q);
    EmitSane(TablesAfter(n, h, q), EmissionOf(n, h, q));
    var e := Emit(TablesAfter(n, h, q), EmissionOf(n, h, q));
    assert e.byName == TablesAfter(n, h, q).byName && e.sessions == TablesAfter(n, h, q).sessions;
    AskTidyFrom(n, h, q, HandleRequest(n, h, q, {}), e);
  }

  lemma AskTidyFrom(n: Node, h: Handle, q: Request, d: Node, e: Node)
    requires Tidy(n) && h in n.sessions && WellFormed(q) && LogsInOnce(n, h, q)
    requires d == HandleRequest(n, h, q, {}) && Core(d) == Core(e) && Sane(e) && NamesMatch(e)
    ensures Tidy(d)
  {
    SaneTables(d, e);
    SameMatch(d, e);
    AskNames(n, h, q, h);
    forall g | g in d.sessions && d.sessions[g].name == []
      ensures n.sessions[g].name == []
      ensures forall c | IsChat(c) ::
      Received(d, g, c) == Received(n, g, c)
    {
      AskNames(n, h, q, g);
      UnnamedReceived(n, h, q, g);
    }
    NothingReadKept(n, d);
  }

  lemma UnnamedReceived(n: Node, h: Handle, q: Request, g: Handle)
    requires Tidy(n) && h in n.sessions && g in n.sessions && WellFormed(q)
    ensures n.sessions[g].name == [] ==>
              forall c | IsChat(c) :: Received(HandleRequest(n, h, q, {}), g, c) == Received(n, g, c)
  {
    if n.sessions[g].name == [] {
      forall c | IsChat(c)
        ensures Received(HandleRequest(n, h, q, {}), g, c) == Received(n, g, c)
      {
        AskReceived(n, h, q, g, c);
        if Origin(n, h, q).Some? { ReadersAreNamed(n, Origin(n, h, q).value, g); }
      }
    }
  }

  /** A state with the same names whose unnamed sessions were sent no chat. */
  lemma TidyLike(n: Node, d: Node, e: Node)
    requires Tidy(n) && Core(d) == Core(e) && Sane(e) && NamesMatch(e)
    requires e.sessions.Keys == n.sessions.Keys && forall g <- n.sessions :: e.sessions[g].name == n.sessions[g].name
    requires forall g, c | g in n.sessions && n.sessions[g].name == [] && IsChat(c) ::
      Received(d, g, c) == Received(n, g, c)
    ensures Tidy(d)
  {
    SaneTables(d, e);
    SameMatch(d, e);
    SameNames(d, e);
    NothingReadKept(n, d);
  }

  lemma HangupTidy(n: Node, h: Handle)
    requires Tidy(n) && h in n.live
    ensures Tidy(Hangup(n, h, {}))
  {
    HangupCore(n, h);
    HangupSane(n, h);
    EmitSane(TablesAfterHangup(n, h), EmissionOfHangup(n, h));
    forall g, c | g in n.sessions && IsChat(c)
      ensures Received(Hangup(n, h, {}), g, c) == Received(n, g, c)
    {
      HangupReceived(n, h, g, c);
    }
    TidyLike(n, Hangup(n, h, {}), Emit(TablesAfterHangup(n, h), EmissionOfHangup(n, h)));
  }

  lemma ReceiveTidy(n: Node, p: int, m: Message)
    requires Tidy(n) && p in n.out
    ensures Tidy(Receive(n, p, m))
  {
    ReceiveCore(n, p, m);
    ReceiveSane(n, p, m);
    ReceiveMatch(n, p, m);
    ReceiveUnread(n, p, m);
    TidyLike(n, Receive(n, p, m), TablesAfterReceive(n, p, m));
  }

  lemma ReceiveMatch(n: Node, p: int, m: Message)
    requires NamesMatch(n)
    ensures var e := TablesAfterReceive(n, p, m); NamesMatch(e) && e.sessions == n.sessions
  {
  }

  lemma ReceiveUnread(n: Node, p: int, m: Message)
    requires Tidy(n) && p in n.out
    ensures forall g, c | g in n.sessions && n.sessions[g].name == [] && IsChat(c) ::
      Received(Receive(n, p, m), g, c) == Received(n, g, c)
  {
    forall g, c | g in n.sessions && n.sessions[g].name == [] && IsChat(c)
      ensures Received(Receive(n, p, m), g, c) == Received(n, g, c)
    {
      ReceiveNamed(n, p, m, g, c);
    }
  }

  lemma ReceiveNamed(n: Node, p: int, m: Message, g: Handle, c: ClientMessage)
    requires Sane(n) && NamesMatch(n) && g in n.sessions && n.sessions[g].name == [] && IsChat(c)
    ensures Received(Receive(n, p, m), g, c) == Received(n, g, c)
  {
    ReceiveReceived(n, p, m, g, c);
    GainNamed(n, m, g, c);
  }

  lemma GainNamed(n: Node, m: Message, g: Handle, c: ClientMessage)
    requires Sane(n) && NamesMatch(n) && g in n.sessions && n.sessions[g].name == []
    ensures Gain(n, m, g, c) == 0
  {
    match m
    case RoutePrivate(a, r, x) => ReadersAreNamed(n, PrivateChat(a, r, x), g);
    case RouteRoom(a, r, x) => ReadersAreNamed(n, RoomChat(a, r, x), g);
    case RouteBroadcast(a, x) => ReadersAreNamed(n, BroadcastChat(a, x), g);
    case _ =>
  }

  lemma PeerDownTidy(n: Node, p: int)
    requires Tidy(n) && p in n.up
    ensures Tidy(PeerDown(n, p))
  {
    PeerDownCore(n, p);
    PeerDownSane(n, p);
    forall g, c | g in n.sessions && IsChat(c)
      ensures Received(PeerDown(n, p), g, c) == Received(n, g, c)
    {
      PeerDownReceived(n, p, g, c);
    }
    TidyLike(n, PeerDown(n, p), PeerDownTables(n, p));
  }

  lemma SameSessionsTidy(n: Node, d: Node)
    requires Tidy(n) && Sane(d) && d.sessions == n.sessions && d.byName == n.byName
    ensures Tidy(d)
  {
    forall g, c | g in d.sessions && d.sessions[g].name == [] && IsChat(c)
      ensures Received(d, g, c) == 0
    {
      assert Received(n, g, c) == 0;
    }
  }

  lemma AcceptTidy(n: Node, h: Handle)
    requires Tidy(n) && h !in n.sessions && Sane(AcceptSession(n, h))
    ensures Tidy(AcceptSession(n, h))
  {
    var d := AcceptSession(n, h);
    forall g, c | g in d.sessions && d.sessions[g].name == [] && IsChat(c)
      ensures Received(d, g, c) == 0
    {
      if g != h { assert Received(n, g, c) == 0; }
    }
  }

  lemma StepTidy(c: Cluster, l: Label)
    requires Sound(c) && AllTidy(c) && Enabled(c, l) && OneLogin(c, l)
    ensures AllTidy(Step(c, l))
  {
    match l
    case Accept(s, h) => AcceptAllTidy(c, s, h);
    case Ask(s, h, q) =>
      AskTidy(c.nodes[s], h, q);
      TidyUpdate(c, s, HandleRequest(c.nodes[s], h, q, {}));
    case HangUp(s, h) =>
      HangupTidy(c.nodes[s], h);
      TidyUpdate(c, s, Hangup(c.nodes[s], h, {}));
    case Deliver(s, t) => DeliverTidy(c, s, t);
    case Tick(s, t) => TickTidy(c, s, t);
    case LinkDown(s, t) => LinkDownTidy(c, s, t);
    case LinkUp(s, t, h) => LinkUpTidy(c, s, t, h);
  }

  lemma TidyUpdate(c: Cluster, s: int, k: Node)
    requires AllTidy(c) && s in c.nodes && Tidy(k)
    ensures AllTidy(Cluster(c.nodes[s := k]))
  {
  }

  lemma AcceptAllTidy(c: Cluster, s: int, h: Handle)
    requires Sound(c) && AllTidy(c) && Enabled(c, Accept(s, h))
    ensures AllTidy(Step(c, Accept(s, h)))
  {
    StepSound(c, Accept(s, h));
    AcceptTidy(c.nodes[s], h);
    TidyUpdate(c, s, AcceptSession(c.nodes[s], h));
  }

  lemma TickTidy(c: Cluster, s: int, t: int)
    requires Sound(c) && AllTidy(c) && Enabled(c, Tick(s, t))
    ensures AllTidy(Step(c, Tick(s, t)))
  {
    var n := c.nodes[s];
    SendOneSpreads(n, t, Heartbeat);
    SpreadSane(n, {t} * n.up, Heartbeat);
    SameSessionsTidy(n, Spread(n, {t} * n.up, Heartbeat));
    assert Ping(n, t) == Spread(n, {t} * n.up, Heartbeat);
    TidyUpdate(c, s, Ping(n, t));
  }

  lemma LinkDownTidy(c: Cluster, s: int, t: int)
    requires Sound(c) && AllTidy(c) && Enabled(c, LinkDown(s, t))
    ensures AllTidy(Step(c, LinkDown(s, t)))
  {
    PeerDownTidy(c.nodes[s], t);
    PeerDownTidy(c.nodes[t], s);
    TidyUpdate(c, s, PeerDown(c.nodes[s], t));
    TidyUpdate(Cluster(c.nodes[s := PeerDown(c.nodes[s], t)]), t, PeerDown(c.nodes[t], s));
  }

  lemma DeliverTidy(c: Cluster, s: int, t: int)
    requires Sound(c) && AllTidy(c) && Enabled(c, Deliver(s, t))
    ensures AllTidy(Step(c, Deliver(s, t)))
  {
    PopSane(c.nodes[s], t);
    SameSessionsTidy(c.nodes[s], Pop(c.nodes[s], t));
    ReceiveTidy(c.nodes[t], s, c.nodes[s].Queue(t)[0]);
    TidyUpdate(c, s, Pop(c.nodes[s], t));
    TidyUpdate(Cluster(c.nodes[s := Pop(c.nodes[s], t)]), t, Receive(c.nodes[t], s, c.nodes[s].Queue(t)[0]));
  }

  lemma LinkUpTidy(c: Cluster, s: int, t: int, h: Handle)
    requires Sound(c) && AllTidy(c) && Enabled(c, LinkUp(s, t, h))
    ensures AllTidy(Step(c, LinkUp(s, t, h)))
  {
    var n, k := c.nodes[s], c.nodes[t];
    SameSessionsTidy(n, PeerUp(n, t));
    PromoteSane(k, h, s);
    SameSessionsTidy(k, Promote(k, h, s));
    TidyUpdate(c, s, PeerUp(n, t));
    TidyUpdate(Cluster(c.nodes[s := PeerUp(n, t)]), t, Promote(k, h, s));
  }

  // One step of the cluster.

  function Adds(c: Cluster, l: Label, t: int, g: Handle, k: Chat): nat {
    if l.Ask? && l.s in c.nodes && l.h in c.nodes[l.s].sessions then AskAdds(c.nodes[l.s], l.h, l.q, t, g, k) else 0
  }

  ghost function ChatSum(c: Cluster, t: int, g: Handle, k: Chat): nat {
    Total(c, n => SessionShare(t, g, k, n))
  }

  /** The step cuts no link to `t`, and if it handles a packet with the chat there, then
      `g` is due a copy at that moment. */
  predicate KeepsCopies(c: Cluster, l: Label, t: int, g: Handle, k: Chat) {
    && (l.LinkDown? ==> l.s != t && l.t != t)
    && (l.Deliver? && l.t == t && t in c.nodes && l.s in c.nodes ==>
          var q := c.nodes[l.s].Queue(t);
          q != [] && q[0] == Carrier(k) ==> Readers(c.nodes[t], k, g) == 1)
  }

  lemma DeliverSum(c: Cluster, s: int, y: int, t: int, g: Handle, k: Chat)
    requires Sound(c) && AllTidy(c) && Enabled(c, Deliver(s, y))
    ensures ChatSum(Step(c, Deliver(s, y)), t, g, k) <= ChatSum(c, t, g, k)
    ensures KeepsCopies(c, Deliver(s, y), t, g, k) ==> ChatSum(Step(c, Deliver(s, y)), t, g, k) == ChatSum(c, t, g, k)
  {
    var m := c.nodes[s].Queue(y)[0];
    PopShare(c.nodes[s], y, t, g, k);
    ReceiveShare(c.nodes[y], s, m, t, g, k);
    ReadersAreNamed(c.nodes[y], k, g);
    TotalUpdateTwo(c, n => SessionShare(t, g, k, n), s, Pop(c.nodes[s], y), y, Receive(c.nodes[y], s, m));
  }

  lemma LinkDownSum(c: Cluster, x: int, y: int, t: int, g: Handle, k: Chat)
    requires Sound(c) && Enabled(c, LinkDown(x, y))
    ensures ChatSum(Step(c, LinkDown(x, y)), t, g, k) <= ChatSum(c, t, g, k)
    ensures KeepsCopies(c, LinkDown(x, y), t, g, k) ==> ChatSum(Step(c, LinkDown(x, y)), t, g, k) == ChatSum(c, t, g, k)
  {
    PeerDownShare(c.nodes[x], y, t, g, k);
    PeerDownShare(c.nodes[y], x, t, g, k);
    TotalUpdateTwo(c, n => SessionShare(t, g, k, n), x, PeerDown(c.nodes[x], y), y, PeerDown(c.nodes[y], x));
  }

  lemma LinkUpSum(c: Cluster, x: int, y: int, h: Handle, t: int, g: Handle, k: Chat)
    requires Sound(c) && Enabled(c, LinkUp(x, y, h))
    ensures ChatSum(Step(c, LinkUp(x, y, h)), t, g, k) == ChatSum(c, t, g, k)
  {
    LinkUpShare(c.nodes[x], h, y, t, g, k);
    LinkUpShare(c.nodes[y], h, x, t, g, k);
    TotalUpdateTwo(c, n => SessionShare(t, g, k, n), x, PeerUp(c.nodes[x], y), y, Promote(c.nodes[y], h, x));
  }

  /** Only asking for a chat adds to its sum; without loss nothing is taken from it. */
  lemma StepSum(c: Cluster, l: Label, t: int, g: Handle, k: Chat)
    requires Sound(c) && AllTidy(c) && Enabled(c, l) && OneLogin(c, l)
    ensures ChatSum(Step(c, l), t, g, k) <= ChatSum(c, t, g, k) + Adds(c, l, t, g, k)
    ensures KeepsCopies(c, l, t, g, k) ==> ChatSum(Step(c, l), t, g, k) == ChatSum(c, t, g, k) + Adds(c, l, t, g, k)
  {
    var n := c.nodes[l.s];
    match l
    case Accept(s, h) =>
      AcceptShare(n, h, t, g, k);
      TotalUpdate(c, n => SessionShare(t, g, k, n), s, AcceptSession(n, h));
    case Ask(s, h, q) =>
      AskShare(n, h, q, t, g, k);
      TotalUpdate(c, n => SessionShare(t, g, k, n), s, HandleRequest(n, h, q, {}));
    case HangUp(s, h) =>
      HangupShare(n, h, t, g, k);
      TotalUpdate(c, n => SessionShare(t, g, k, n), s, Hangup(n, h, {}));
    case Deliver(s, y) => DeliverSum(c, s, y, t, g, k);
    case Tick(s, y) =>
      PingShare(n, y, t, g, k);
      TotalUpdate(c, n => SessionShare(t, g, k, n), s, Ping(n, y));
    case LinkDown(x, y) => LinkDownSum(c, x, y, t, g, k);
    case LinkUp(x, y, h) => LinkUpSum(c, x, y, h, t, g, k);
  }
}
