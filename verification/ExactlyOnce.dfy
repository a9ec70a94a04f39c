/** Delivery over whole runs: never more copies than requests, and exactly one copy for
    every reader that stays a reader and whose link is not lost. */
module ExactlyOnce {
  import opened Bytes
  import opened Messages
  import opened Nodes
  import opened NodeFacts
  import opened Cluster
  import opened Sets
  import opened RoomRoutes
  import opened Sessions
  import opened Directory
  import opened Chats
  import opened Delivery

  predicate AsksFor(c: Cluster, l: Label, k: Chat) {
    l.Ask? && l.s in c.nodes && l.h in c.nodes[l.s].sessions && Origin(c.nodes[l.s], l.h, l.q) == Some(k)
  }

  /** How often the chat is asked for in a run. */
  ghost function Requests(rule: (Cluster, Label) -> bool, c: Cluster, ls: seq<Label>, k: Chat): nat
    requires Run(rule, c, ls)
    decreases |ls|
  {
    if ls == [] then 0 else (if AsksFor(c, ls[0], k) then 1 else 0) + Requests(rule, Step(c, ls[0]), ls[1..], k)
  }

  lemma AddsBound(c: Cluster, l: Label, t: int, g: Handle, k: Chat)
    requires AllTidy(c)
    ensures Adds(c, l, t, g, k) <= if AsksFor(c, l, k) then 1 else 0
  {
    if l.s in c.nodes { ReadersAreNamed(c.nodes[l.s], k, g); }
  }

  lemma {:induction false} SumBounded(c: Cluster, ls: seq<Label>, t: int, g: Handle, k: Chat)
    requires Sound(c) && AllTidy(c) && Run(OneLogin, c, ls)
    ensures ChatSum(End(OneLogin, c, ls), t, g, k) <= ChatSum(c, t, g, k) + Requests(OneLogin, c, ls, k)
    decreases |ls|
  {
    if ls != [] {
      StepSound(c, ls[0]);
      StepTidy(c, ls[0]);
      StepSum(c, ls[0], t, g, k);
      AddsBound(c, ls[0], t, g, k);
      SumBounded(Step(c, ls[0]), ls[1..], t, g, k);
    }
  }

  lemma SumIncludesSeen(c: Cluster, t: int, g: Handle, k: Chat)
    requires Sound(c) && t in c.nodes
    ensures Seen(c.nodes[t], g, k) <= ChatSum(c, t, g, k)
  {
    var w := n => SessionShare(t, g, k, n);
    SumRemove(c.nodes.Keys, s => Share(c, w, s), t);
    assert Share(c, w, t) == SessionShare(t, g, k, c.nodes[t]);
  }

  lemma {:induction false} SumOfZeros<T>(s: set<T>, f: T -> nat)
    requires forall x <- s :: f(x) == 0
    ensures Sum(s, f) == 0
  {
    if s != {} {
      var x := Any(s);
      SumRemove(s, f, x);
      SumOfZeros(s - {x}, f);
    }
  }

  /** When no packet with the chat is on its way to `t` the sum is what was read there. */
  lemma SumIsSeen(c: Cluster, t: int, g: Handle, k: Chat)
    requires Sound(c) && t in c.nodes
    requires forall s <- c.nodes :: Carrier(k) !in c.nodes[s].Queue(t)
    ensures ChatSum(c, t, g, k) == Seen(c.nodes[t], g, k)
  {
    var w := n => SessionShare(t, g, k, n);
    SumRemove(c.nodes.Keys, s => Share(c, w, s), t);
    forall s | s in c.nodes.Keys - {t}
      ensures Share(c, w, s) == 0
    {
      assert Carrier(k) !in c.nodes[s].Queue(t);
    }
    SumOfZeros(c.nodes.Keys - {t}, s => Share(c, w, s));
    assert Share(c, w, t) == SessionShare(t, g, k, c.nodes[t]);
    assert Carrier(k) !in c.nodes[t].Queue(t);
  }

  lemma InitialTidy(c: Cluster)
    requires Initial(c)
    ensures AllTidy(c)
  {
    assert forall s <- c.nodes :: c.nodes[s].sessions == map[] && c.nodes[s].byName == map[];
  }

  lemma InitialSum(c: Cluster, t: int, g: Handle, k: Chat)
    requires Initial(c)
    ensures AllTidy(c) && ChatSum(c, t, g, k) == 0
  {
    InitialTidy(c);
    var w := n => SessionShare(t, g, k, n);
    forall s | s in c.nodes.Keys
      ensures Share(c, w, s) == 0
    {
      EmptyShare(c.nodes[s], t, g, k);
    }
    SumOfZeros(c.nodes.Keys, s => Share(c, w, s));
  }

  lemma EmptyShare(n: Node, t: int, g: Handle, k: Chat)
    requires n.sessions == map[] && forall p <- n.out :: n.out[p] == []
    ensures SessionShare(t, g, k, n) == 0
  {
  }

  /** No run delivers a room message or a broadcast to a session more often than it was
      asked for, however links fail and names collide. */
  lemma NeverTooMany(c: Cluster, ls: seq<Label>, t: int, g: Handle, k: Chat)
    requires Initial(c) && Run(OneLogin, c, ls) && t in c.nodes && !k.PrivateChat?
    ensures t in End(OneLogin, c, ls).nodes
    ensures Received(End(OneLogin, c, ls).nodes[t], g, CopyOf(k)) <= Requests(OneLogin, c, ls, k)
  {
    InitialSum(c, t, g, k);
    SumBounded(c, ls, t, g, k);
    EndKeys(OneLogin, c, ls);
    EndSound(OneLogin, c, ls);
    SumIncludesSeen(End(OneLogin, c, ls), t, g, k);
  }

  lemma {:induction false} EndSound(rule: (Cluster, Label) -> bool, c: Cluster, ls: seq<Label>)
    requires Sound(c) && Run(rule, c, ls)
    ensures Sound(End(rule, c, ls))
    decreases |ls|
  {
    if ls != [] {
      StepSound(c, ls[0]);
      EndSound(rule, Step(c, ls[0]), ls[1..]);
    }
  }

  /** A session gets no private message but those asked for under its own name, and
      each at most as often. */
  lemma PrivateStaysPrivate(c: Cluster, ls: seq<Label>, t: int, g: Handle, sender: Text, text: Text)
    requires Initial(c) && Run(OneLogin, c, ls) && t in c.nodes
    ensures t in End(OneLogin, c, ls).nodes
    ensures var n := End(OneLogin, c, ls).nodes[t];
            g in n.sessions ==>
              Received(n, g, PrivateMessage(sender, text)) <=
              Requests(OneLogin, c, ls, PrivateChat(sender, n.sessions[g].name, text))
  {
    EndKeys(OneLogin, c, ls);
    var n := End(OneLogin, c, ls).nodes[t];
    if g in n.sessions {
      var k := PrivateChat(sender, n.sessions[g].name, text);
      InitialSum(c, t, g, k);
      SumBounded(c, ls, t, g, k);
      EndSound(OneLogin, c, ls);
      SumIncludesSeen(End(OneLogin, c, ls), t, g, k);
    }
  }

  // Exactly one copy.

  /** Sessions log in once, the chat is not asked for again, no link to `t` is lost, and
      whenever a packet with the chat is handled at `t`, `g` is due a copy. */
  predicate Undisturbed(t: int, g: Handle, k: Chat, c: Cluster, l: Label) {
    OneLogin(c, l) && KeepsCopies(c, l, t, g, k) && !AsksFor(c, l, k)
  }

  lemma {:induction false} SumConserved(c: Cluster, ls: seq<Label>, t: int, g: Handle, k: Chat)
    requires Sound(c) && AllTidy(c) && Run((d, l) => Undisturbed(t, g, k, d, l), c, ls)
    ensures ChatSum(End((d, l) => Undisturbed(t, g, k, d, l), c, ls), t, g, k) == ChatSum(c, t, g, k)
    decreases |ls|
  {
    if ls != [] {
      StepSound(c, ls[0]);
      StepTidy(c, ls[0]);
      StepSum(c, ls[0], t, g, k);
      AddsBound(c, ls[0], t, g, k);
      SumConserved(Step(c, ls[0]), ls[1..], t, g, k);
    }
  }

  lemma OneCopyStays(c: Cluster, ls: seq<Label>, t: int, g: Handle, k: Chat)
    requires Sound(c) && AllTidy(c) && t in c.nodes && ChatSum(c, t, g, k) == 1
    requires Run((d, l) => Undisturbed(t, g, k, d, l), c, ls)
    ensures var d := End((d, l) => Undisturbed(t, g, k, d, l), c, ls);
            t in d.nodes && ChatSum(d, t, g, k) == 1 &&
            ((forall s <- d.nodes :: Carrier(k) !in d.nodes[s].Queue(t)) ==> Seen(d.nodes[t], g, k) == 1)
  {
    SumConserved(c, ls, t, g, k);
    EndKeys((d, l) => Undisturbed(t, g, k, d, l), c, ls);
    EndSound((d, l) => Undisturbed(t, g, k, d, l), c, ls);
    var d := End((d, l) => Undisturbed(t, g, k, d, l), c, ls);
    if forall s <- d.nodes :: Carrier(k) !in d.nodes[s].Queue(t) {
      SumIsSeen(d, t, g, k);
    }
  }

  /** A chat that was never asked for before is asked for in a way that reaches `t`. After
      any undisturbed run, `g` has one copy or one packet with it is still on its way to
      `t`; once none is, `g` has exactly one copy. */
  lemma ExactlyOneCopy(c: Cluster, l: Label, ls: seq<Label>, t: int, g: Handle, k: Chat)
    requires Sound(c) && AllTidy(c) && t in c.nodes && Enabled(c, l) && OneLogin(c, l)
    requires ChatSum(c, t, g, k) == 0 && Adds(c, l, t, g, k) == 1
    requires Run((d, m) => Undisturbed(t, g, k, d, m), Step(c, l), ls)
    ensures var d := End((d, m) => Undisturbed(t, g, k, d, m), Step(c, l), ls);
            t in d.nodes && ChatSum(d, t, g, k) == 1 &&
            ((forall s <- d.nodes :: Carrier(k) !in d.nodes[s].Queue(t)) ==> Seen(d.nodes[t], g, k) == 1)
  {
    OneRequest(c, l, t, g, k);
    OneCopyStays(Step(c, l), ls, t, g, k);
  }

  lemma OneRequest(c: Cluster, l: Label, t: int, g: Handle, k: Chat)
    requires Sound(c) && AllTidy(c) && Enabled(c, l) && OneLogin(c, l)
    requires ChatSum(c, t, g, k) == 0 && Adds(c, l, t, g, k) == 1
    ensures Sound(Step(c, l)) && AllTidy(Step(c, l)) && ChatSum(Step(c, l), t, g, k) == 1
  {
    StepSound(c, l);
    StepTidy(c, l);
    StepSum(c, l, t, g, k);
  }

  // Which requests reach whom.

  /** A server lists only other servers of the cluster. */
  ghost predicate ListsPeers(c: Cluster) {
    forall t <- c.nodes, room :: c.nodes[t].Remote(room) <= c.nodes.Keys - {t}
  }

  lemma NodeListsPeers(n: Node, p: int, m: Message, room: Text)
    requires Sane(n)
    ensures m.RoomSync? ==> TablesAfterReceive(n, p, m).Remote(room) <= n.Remote(room) + {m.server}
    ensures !m.RoomSync? ==> TablesAfterReceive(n, p, m).Remote(room) == n.Remote(room)
    ensures PeerDownTables(n, p).Remote(room) <= n.Remote(room)
  {
  }

  lemma DeliverListsPeers(c: Cluster, x: int, y: int, t: int, room: Text)
    requires Sound(c) && Honest(c) && ListsPeers(c) && Enabled(c, Deliver(x, y)) && t in c.nodes
    ensures Tables(c, Deliver(x, y)).nodes[t].Remote(room) <= c.nodes.Keys - {t}
  {
    assert c.nodes[t].Remote(room) <= c.nodes.Keys - {t};
    var m := c.nodes[x].Queue(y)[0];
    assert m in c.nodes[x].Queue(y);
    assert HonestNode(c.nodes[x]);
    NodeListsPeers(c.nodes[y], x, m, room);
  }

  lemma TablesListPeers(c: Cluster, l: Label, t: int, room: Text)
    requires Sound(c) && Honest(c) && ListsPeers(c) && Enabled(c, l) && t in c.nodes
    ensures Tables(c, l).nodes[t].Remote(room) <= c.nodes.Keys - {t}
  {
    assert c.nodes[t].Remote(room) <= c.nodes.Keys - {t};
    match l
    case Ask(x, h, q) => AskRooms(c.nodes[x], h, q, room);
    case Deliver(x, y) =>
      DeliverListsPeers(c, x, y, t, room);
    case LinkDown(x, y) =>
      NodeListsPeers(c.nodes[x], y, Unreadable, room);
      NodeListsPeers(c.nodes[y], x, Unreadable, room);
    case LinkUp(x, y, h) =>
      PromoteRooms(c.nodes[x], h, y, room, t);
      PromoteRooms(c.nodes[y], h, x, room, t);
    case _ =>
  }

  lemma StepListsPeers(c: Cluster, l: Label)
    requires Sound(c) && Honest(c) && ListsPeers(c) && Enabled(c, l)
    ensures ListsPeers(Step(c, l))
  {
    StepTables(c, l);
    forall t, room | t in c.nodes
      ensures Tables(c, l).nodes[t].Remote(room) <= c.nodes.Keys - {t}
    {
      TablesListPeers(c, l, t, room);
    }
    SameListsPeers(Step(c, l), Tables(c, l));
  }

  lemma SameListsPeers(a: Cluster, b: Cluster)
    requires SameTables(a, b) && ListsPeers(b)
    ensures ListsPeers(a)
  {
    forall t, room | t in a.nodes
      ensures a.nodes[t].Remote(room) <= a.nodes.Keys - {t}
    {
      assert Core(a.nodes[t]) == Core(b.nodes[t]);
      assert b.nodes[t].Remote(room) <= b.nodes.Keys - {t};
    }
  }

  /** In no run, with links failing as they may, does a server list itself or a stranger. */
  lemma {:induction false} NeverListsItself(c: Cluster, ls: seq<Label>)
    requires Sound(c) && Honest(c) && ListsPeers(c) && Run(AnyStep, c, ls)
    ensures ListsPeers(End(AnyStep, c, ls))
    decreases |ls|
  {
    if ls != [] {
      StepSound(c, ls[0]);
      StepHonest(c, ls[0]);
      StepListsPeers(c, ls[0]);
      NeverListsItself(Step(c, ls[0]), ls[1..]);
    }
  }

  /** No word about `room` is on its way to `s`. */
  predicate NoSync(c: Cluster, s: int, room: Text)
    requires s in c.nodes
  {
    forall t <- c.nodes, m <- c.nodes[t].Queue(s) :: !(m.RoomSync? && m.room == room)
  }

  lemma {:induction false} RoomFoldNoSync(q: seq<Message>, room: Text, s: int, listed: bool)
    requires forall m <- q :: !(m.RoomSync? && m.room == room)
    ensures RoomFold(q, room, s, listed) == listed
  {
    if q != [] {
      assert q[0] in q;
      RoomFoldNoSync(q[1..], room, s, listed);
    }
  }

  function OthersWithMembers(c: Cluster, s: int, room: Text): set<int> {
    set t | t in c.nodes && t != s && c.nodes[t].Local(room) != {}
  }

  /** With no word about the room on its way, a room message goes in one packet to each
      other server with members and to no other server; never to the sender's own. */
  lemma RoomTargets(c: Cluster, s: int, h: Handle, room: Text, text: Text)
    requires Sound(c) && FullMesh(c) && Converging(c) && ListsPeers(c) && s in c.nodes && NoSync(c, s, room)
    requires h in c.nodes[s].sessions && c.nodes[s].sessions[h].authenticated && room in c.nodes[s].sessions[h].rooms
    ensures EmissionOf(c.nodes[s], h, RoomText(room, text)) ==
            To(OthersWithMembers(c, s, room), RouteRoom(c.nodes[s].sessions[h].name, room, text))
  {
    var n := c.nodes[s];
    assert n.Remote(room) <= c.nodes.Keys - {s};
    forall t | t in c.nodes && t != s
      ensures t in n.Remote(room) <==> c.nodes[t].Local(room) != {}
    {
      assert RouteView(c, t, s, room) == Holds(c, t, room);
      RoomFoldNoSync(c.nodes[t].Queue(s), room, t, t in n.Remote(room));
    }
    assert n.Remote(room) * n.up == OthersWithMembers(c, s, room);
  }

  lemma RoomTextReaches(c: Cluster, s: int, h: Handle, room: Text, text: Text, t: int, g: Handle)
    requires Sound(c) && FullMesh(c) && Converging(c) && ListsPeers(c)
    requires s in c.nodes && t in c.nodes && NoSync(c, s, room)
    requires h in c.nodes[s].sessions && c.nodes[s].sessions[h].authenticated && room in c.nodes[s].sessions[h].rooms
    requires var k := RoomChat(c.nodes[s].sessions[h].name, room, text); Readers(c.nodes[t], k, g) == 1
    ensures Adds(c, Ask(s, h, RoomText(room, text)), t, g, RoomChat(c.nodes[s].sessions[h].name, room, text)) == 1
  {
    if t != s {
      RoomTargets(c, s, h, room, text);
      var u := Any(NamesOf(c.nodes[t], c.nodes[t].Local(room), g));
      assert u in c.nodes[t].Local(room);
    }
  }

  /** A broadcast goes in one packet to every peer. */
  lemma BroadcastReaches(c: Cluster, s: int, h: Handle, text: Text, t: int, g: Handle)
    requires Sound(c) && FullMesh(c) && s in c.nodes && t in c.nodes
    requires h in c.nodes[s].sessions && c.nodes[s].sessions[h].authenticated
    requires s == t ==> g in c.nodes[t].Authenticated()
    ensures EmissionOf(c.nodes[s], h, Broadcast(text)) ==
            To(c.nodes.Keys - {s}, RouteBroadcast(c.nodes[s].sessions[h].name, text))
    ensures Adds(c, Ask(s, h, Broadcast(text)), t, g, BroadcastChat(c.nodes[s].sessions[h].name, text)) == 1
  {
  }

  predicate NothingAbout(c: Cluster, u: Text) {
    forall x <- c.nodes, y <- c.nodes :: NoNews(c.nodes[x].Queue(y), u)
  }

  /** With no news of a user under way every directory names the host, or nobody. */
  lemma DirectoriesName(c: Cluster, u: Text, s: int, t: int)
    requires DirectoryOk(c) && NothingAbout(c, u) && s in c.nodes && t in c.nodes
    ensures c.nodes[s].Location(u) == c.nodes[t].Location(u)
    ensures c.nodes[s].Location(u) == None ||
            exists o :: o in c.nodes && c.nodes[s].Location(u) == Some(o) && c.nodes[o].Location(u) == Some(o)
  {
    assert Settled(c, u);
    var o :| Owned(c, u, o) && Exact(c, u, o);
    forall x | x in c.nodes
      ensures c.nodes[x].Location(u) == c.nodes[o].Location(u)
    {
      UserFoldNoNews(c.nodes[o].Queue(x), u, c.nodes[x].Location(u));
      assert x == o || UserView(c, o, x, u) == c.nodes[o].Location(u);
    }
    assert EntryFits(c.nodes[o], u, o);
  }

  /** A private message reaches the session that carries the name, wherever it is. */
  lemma PrivateReaches(c: Cluster, s: int, h: Handle, u: Text, text: Text, t: int, g: Handle)
    requires DirectoryOk(c) && NothingAbout(c, u) && s in c.nodes && t in c.nodes
    requires h in c.nodes[s].sessions && c.nodes[s].sessions[h].authenticated
    requires u in c.nodes[t].byName && c.nodes[t].byName[u] == g
    ensures Adds(c, Ask(s, h, Private(u, text)), t, g, PrivateChat(c.nodes[s].sessions[h].name, u, text)) == 1
  {
    assert NameAgrees(c.nodes[t], u);
    DirectoriesName(c, u, s, t);
  }

  /** The sender is told that the user is offline exactly when no server hosts the user. */
  lemma OfflineIffNoHost(c: Cluster, s: int, h: Handle, u: Text, text: Text)
    requires DirectoryOk(c) && NothingAbout(c, u) && Enabled(c, Ask(s, h, Private(u, text)))
    requires c.nodes[s].sessions[h].authenticated
    ensures Refused(c.nodes[s], h, u, text) <==> forall o <- c.nodes :: c.nodes[o].Location(u) != Some(o)
  {
    var n := c.nodes[s];
    if n.Location(u) == Some(s) {
      HostIsIndexed(c, s, u);
    }
    UnlistedIffNoHost(c, s, u);
    PrivateReply(n, h, u, text);
  }

  lemma HostIsIndexed(c: Cluster, s: int, u: Text)
    requires Sound(c) && IndexesAgree(c) && s in c.nodes && c.nodes[s].Location(u) == Some(s)
    ensures u in c.nodes[s].byName
  {
    assert NameAgrees(c.nodes[s], u);
  }

  lemma UnlistedIffNoHost(c: Cluster, s: int, u: Text)
    requires DirectoryOk(c) && NothingAbout(c, u) && s in c.nodes
    ensures c.nodes[s].Location(u) == None || c.nodes[s].users[u] <= 0 <==>
            forall o <- c.nodes :: c.nodes[o].Location(u) != Some(o)
  {
    DirectoriesName(c, u, s, s);
    if c.nodes[s].Location(u) == None {
      forall o | o in c.nodes
        ensures c.nodes[o].Location(u) != Some(o)
      {
        DirectoriesName(c, u, s, o);
      }
    } else {
      var o :| o in c.nodes && c.nodes[s].Location(u) == Some(o) && c.nodes[o].Location(u) == Some(o);
      assert 0 < c.nodes[o].id == o;
    }
  }

  /** The sender of a private message is told, last, that the user is offline. */
  ghost predicate Refused(n: Node, h: Handle, u: Text, text: Text)
    requires h in n.sessions
  {
    var k := HandleRequest(n, h, Private(u, text), {});
    h in k.sessions && k.sessions[h].log != [] && k.sessions[h].log[|k.sessions[h].log| - 1] == Status(UserOffline)
  }

  lemma PrivateReply(n: Node, h: Handle, u: Text, text: Text)
    requires Sane(n) && h in n.sessions && NulFree(u) && NulFree(text) && n.sessions[h].authenticated
    requires n.Location(u) == Some(n.id) ==> u in n.byName
    ensures Refused(n, h, u, text) <==> n.Location(u) == None || n.users[u] <= 0
  {
    if u in n.users && n.users[u] != n.id && n.users[u] > 0 {
      SendToSome(n, {n.users[u]}, RoutePrivate(n.sessions[h].name, u, text));
    }
  }

  /** Handlers of packets from peers pass nothing on: they answer a ping on the link it
      came from, if that is up, and put nothing else on any link. */
  lemma NothingIsForwarded(n: Node, p: int, m: Message, t: int)
    requires Sane(n) && p in n.out
    ensures Receive(n, p, m).Queue(t) ==
            n.Queue(t) + if t == p && p in n.up && m == Heartbeat then [HeartbeatAck] else []
  {
    ReceiveCore(n, p, m);
    SameQueue(Receive(n, p, m), TablesAfterReceive(n, p, m), t);
  }

  // From the start of a cluster.

  lemma {:induction false} WeakerRule(strong: (Cluster, Label) -> bool, weak: (Cluster, Label) -> bool,
                                      c: Cluster, ls: seq<Label>)
    requires Run(strong, c, ls) && forall d, l | strong(d, l) :: weak(d, l)
    ensures Run(weak, c, ls) && End(weak, c, ls) == End(strong, c, ls)
    decreases |ls|
  {
    if ls != [] { WeakerRule(strong, weak, Step(c, ls[0]), ls[1..]); }
  }

  predicate Steady(c: Cluster, l: Label) {
    LinksStay(c, l) && OneLogin(c, l)
  }

  /** What holds in every state that a steady run reaches. */
  lemma SteadyState(c: Cluster, ls: seq<Label>)
    requires Initial(c) && FullMesh(c) && Run(Steady, c, ls)
    ensures var d := End(Steady, c, ls);
            d.nodes.Keys == c.nodes.Keys && Sound(d) && AllTidy(d) && FullMesh(d) && Converging(d) && ListsPeers(d)
    ensures Run(OneLogin, c, ls) && End(OneLogin, c, ls) == End(Steady, c, ls)
  {
    InitialRoutes(c);
    InitialTidy(c);
    EndKeys(Steady, c, ls);
    WeakerRule(Steady, LinksStay, c, ls);
    WeakerRule(Steady, OneLogin, c, ls);
    WeakerRule(Steady, AnyStep, c, ls);
    RoomRoutesConverge(c, ls);
    NeverListsItself(c, ls);
    EndTidy(c, ls);
  }

  lemma {:induction false} EndTidy(c: Cluster, ls: seq<Label>)
    requires Sound(c) && AllTidy(c) && Run(OneLogin, c, ls)
    ensures AllTidy(End(OneLogin, c, ls))
    decreases |ls|
  {
    if ls != [] {
      StepSound(c, ls[0]);
      StepTidy(c, ls[0]);
      EndTidy(Step(c, ls[0]), ls[1..]);
    }
  }

  lemma UnaskedSum(c: Cluster, ls: seq<Label>, t: int, g: Handle, k: Chat)
    requires Initial(c) && Run(OneLogin, c, ls) && Requests(OneLogin, c, ls, k) == 0
    ensures ChatSum(End(OneLogin, c, ls), t, g, k) == 0
  {
    InitialSum(c, t, g, k);
    SumBounded(c, ls, t, g, k);
  }

  /** A room message, sent when no word about the room is on its way to the sender's
      server, gets to every session `g` that is a member then, anywhere in the cluster:
      after any undisturbed continuation `g` has exactly one copy, unless the one packet
      with it is still on its way. */
  lemma RoomMessageUndisturbed(c: Cluster, ls: seq<Label>, s: int, h: Handle, room: Text, text: Text,
                               more: seq<Label>, t: int, g: Handle, k: Chat)
    requires Initial(c) && FullMesh(c) && Run(Steady, c, ls) && s in c.nodes && t in c.nodes
    requires Run(OneLogin, c, ls) && Requests(OneLogin, c, ls, k) == 0
    requires var d := End(Steady, c, ls);
             s in d.nodes && t in d.nodes && NoSync(d, s, room) && Enabled(d, Ask(s, h, RoomText(room, text))) &&
             d.nodes[s].sessions[h].authenticated && room in d.nodes[s].sessions[h].rooms &&
             k == RoomChat(d.nodes[s].sessions[h].name, room, text) && Readers(d.nodes[t], k, g) == 1 &&
             Run((e, m) => Undisturbed(t, g, k, e, m), Step(d, Ask(s, h, RoomText(room, text))), more)
    ensures var e := End((e, m) => Undisturbed(t, g, k, e, m),
                         Step(End(Steady, c, ls), Ask(s, h, RoomText(room, text))), more);
            t in e.nodes &&
            ((forall x <- e.nodes :: Carrier(k) !in e.nodes[x].Queue(t)) ==> Received(e.nodes[t], g, CopyOf(k)) == 1)
  {
    SteadyState(c, ls);
    var d := End(Steady, c, ls);
    UnaskedSum(c, ls, t, g, k);
    RoomTextReaches(d, s, h, room, text, t, g);
    ExactlyOneCopy(d, Ask(s, h, RoomText(room, text)), more, t, g, k);
  }

  /** A broadcast gets to every session logged in when its server handles it. */
  lemma BroadcastUndisturbed(c: Cluster, ls: seq<Label>, s: int, h: Handle, text: Text,
                             more: seq<Label>, t: int, g: Handle, k: Chat)
    requires Initial(c) && FullMesh(c) && Run(Steady, c, ls) && s in c.nodes && t in c.nodes
    requires Run(OneLogin, c, ls) && Requests(OneLogin, c, ls, k) == 0
    requires var d := End(Steady, c, ls);
             s in d.nodes && t in d.nodes && Enabled(d, Ask(s, h, Broadcast(text))) &&
             d.nodes[s].sessions[h].authenticated && k == BroadcastChat(d.nodes[s].sessions[h].name, text) &&
             (s == t ==> g in d.nodes[t].Authenticated()) &&
             Run((e, m) => Undisturbed(t, g, k, e, m), Step(d, Ask(s, h, Broadcast(text))), more)
    ensures var e := End((e, m) => Undisturbed(t, g, k, e, m),
                         Step(End(Steady, c, ls), Ask(s, h, Broadcast(text))), more);
            t in e.nodes &&
            ((forall x <- e.nodes :: Carrier(k) !in e.nodes[x].Queue(t)) ==> Received(e.nodes[t], g, CopyOf(k)) == 1)
  {
    SteadyState(c, ls);
    var d := End(Steady, c, ls);
    UnaskedSum(c, ls, t, g, k);
    BroadcastReaches(d, s, h, text, t, g);
    ExactlyOneCopy(d, Ask(s, h, Broadcast(text)), more, t, g, k);
  }

  /** A private message, sent when no news of the receiver is under way, gets to the
      session with the receiver's name, wherever in the cluster it is. */
  lemma PrivateMessageUndisturbed(c: Cluster, ls: seq<Label>, s: int, h: Handle, u: Text, text: Text,
                                  more: seq<Label>, t: int, g: Handle, k: Chat)
    requires Initial(c) && FullMesh(c) && Run(Orderly, c, ls) && s in c.nodes && t in c.nodes
    requires Run(OneLogin, c, ls) && Requests(OneLogin, c, ls, k) == 0
    requires var d := End(Orderly, c, ls);
             s in d.nodes && t in d.nodes && NothingAbout(d, u) && Enabled(d, Ask(s, h, Private(u, text))) &&
             d.nodes[s].sessions[h].authenticated && k == PrivateChat(d.nodes[s].sessions[h].name, u, text) &&
             u in d.nodes[t].byName && d.nodes[t].byName[u] == g &&
             Run((e, m) => Undisturbed(t, g, k, e, m), Step(d, Ask(s, h, Private(u, text))), more)
    ensures var e := End((e, m) => Undisturbed(t, g, k, e, m),
                         Step(End(Orderly, c, ls), Ask(s, h, Private(u, text))), more);
            t in e.nodes &&
            ((forall x <- e.nodes :: Carrier(k) !in e.nodes[x].Queue(t)) ==> Seen(e.nodes[t], g, k) == 1)
  {
    InitialDirectory(c);
    DirectoriesConverge(c, ls);
    InitialTidy(c);
    WeakerRule(Orderly, OneLogin, c, ls);
    EndTidy(c, ls);
    var d := End(Orderly, c, ls);
    UnaskedSum(c, ls, t, g, k);
    PrivateReaches(d, s, h, u, text, t, g);
    ExactlyOneCopy(d, Ask(s, h, Private(u, text)), more, t, g, k);
  }

  /** A member that asks for another name and joins its room again is a reader of the
      room at most once if and only if the name is refused. */
  lemma SecondLoginReadsTwice(n: Node, h: Handle, name: Text, room: Text, k: Chat)
    requires Sane(n) && IndexAgrees(n) && h in n.live && n.sessions[h].authenticated && room in n.sessions[h].rooms
    requires NulFree(room) && room != [] && k.RoomChat? && k.room == room
    ensures h in HandleRequest(n, h, Login(name), {}).sessions
    ensures Readers(HandleRequest(HandleRequest(n, h, Login(name), {}), h, Join(room), {}), k, h) <= 1 <==>
            !ValidName(name) || name in n.users
  {
    if ValidName(name) && name !in n.users {
      SecondNameReadsTwice(n, h, name, room, k);
    } else {
      RefusedNameReadsOnce(n, h, name, room, k);
    }
  }

  lemma RefusedNameReadsOnce(n: Node, h: Handle, name: Text, room: Text, k: Chat)
    requires Sane(n) && IndexAgrees(n) && h in n.live && n.sessions[h].authenticated
    requires !ValidName(name) || name in n.users
    requires NulFree(room) && room != [] && k.RoomChat? && k.room == room
    ensures h in HandleRequest(n, h, Login(name), {}).sessions
    ensures Readers(HandleRequest(HandleRequest(n, h, Login(name), {}), h, Join(room), {}), k, h) <= 1
  {
    var m := HandleRequest(n, h, Login(name), {});
    RequestCore(n, h, Login(name));
    SameIndex(m, n);
    SaneTables(m, n);
    SameSessions(n, m, h);
    assert m.live == Core(m).live == n.live;
    JoinKeepsOneCopy(m, h, room, k);
  }

  lemma JoinKeepsOneCopy(n: Node, h: Handle, room: Text, k: Chat)
    requires Sane(n) && IndexAgrees(n) && h in n.live && NulFree(room) && k.RoomChat?
    ensures Readers(HandleRequest(n, h, Join(room), {}), k, h) <= 1
  {
    var q := Join(room);
    RequestCore(n, h, q);
    AskIndex(n, h, q);
    EmitIndex(TablesAfter(n, h, q), EmissionOf(n, h, q));
    SameIndex(HandleRequest(n, h, q, {}), Emit(TablesAfter(n, h, q), EmissionOf(n, h, q)));
    OneNameOneCopy(HandleRequest(n, h, q, {}), k, h);
  }

  lemma OneNameOneCopy(n: Node, k: Chat, g: Handle)
    requires IndexAgrees(n) && k.RoomChat?
    ensures Readers(n, k, g) <= 1
  {
    var names := NamesOf(n, n.Local(k.room), g);
    if names != {} {
      var u := Any(names);
      forall v | v in names ensures v == u {
        assert NameAgrees(n, u) && NameAgrees(n, v);
      }
      assert names == {u};
    }
  }

  /** A session that takes a second name and joins a room it is in already is a reader of
      that room twice. */
  lemma SecondNameReadsTwice(n: Node, h: Handle, name: Text, room: Text, k: Chat)
    requires Sane(n) && IndexAgrees(n) && h in n.live && n.sessions[h].authenticated && room in n.sessions[h].rooms
    requires ValidName(name) && name !in n.users && NulFree(room) && room != [] && k.RoomChat? && k.room == room
    ensures h in HandleRequest(n, h, Login(name), {}).sessions
    ensures Readers(HandleRequest(HandleRequest(n, h, Login(name), {}), h, Join(room), {}), k, h) >= 2
  {
    var first := n.sessions[h].name;
    assert SessionAgrees(n, h) && NameAgrees(n, first) && NameAgrees(n, name);
    RequestCore(n, h, Login(name));
    TablesAfterSane(n, h, Login(name));
    var e := Emit(TablesAfter(n, h, Login(name)), EmissionOf(n, h, Login(name)));
    EmitSane(TablesAfter(n, h, Login(name)), EmissionOf(n, h, Login(name)));
    JoinsAsBoth(HandleRequest(n, h, Login(name), {}), e, h, first, name, room, k);
  }

  lemma JoinsAsBoth(n: Node, e: Node, h: Handle, first: Text, name: Text, room: Text, k: Chat)
    requires Core(n) == Core(e) && Sane(e) && h in e.sessions && e.sessions[h].name == name && name != []
    requires first in e.byName && e.byName[first] == h && name in e.byName && e.byName[name] == h && first != name
    requires first in e.Local(room) && NulFree(room) && room != [] && k.RoomChat? && k.room == room
    ensures h in n.sessions && Readers(HandleRequest(n, h, Join(room), {}), k, h) >= 2
  {
    SaneTables(n, e);
    SameSessions(n, e, h);
    RequestCore(n, h, Join(room));
    JoinTables(n, h, room);
    TwoNamesTwoCopies(HandleRequest(n, h, Join(room), {}),
                      Emit(TablesAfter(n, h, Join(room)), EmissionOf(n, h, Join(room))), h, first, name, room, k);
  }

  lemma JoinTables(n: Node, h: Handle, room: Text)
    requires h in n.sessions && n.sessions[h].authenticated && room != []
    ensures var t := Emit(TablesAfter(n, h, Join(room)), EmissionOf(n, h, Join(room)));
            t.byName == n.byName && t.Local(room) == n.Local(room) + {n.sessions[h].name}
  {
  }

  lemma TwoNamesTwoCopies(d: Node, t: Node, h: Handle, first: Text, name: Text, room: Text, k: Chat)
    requires Core(d) == Core(t) && first != name && k.RoomChat? && k.room == room
    requires first in t.byName && t.byName[first] == h && name in t.byName && t.byName[name] == h
    requires first in t.Local(room) && name in t.Local(room)
    ensures Readers(d, k, h) >= 2
  {
    assert d.byName == t.byName && d.Local(room) == t.Local(room);
    AtLeastTwo(NamesOf(d, d.Local(room), h), first, name);
  }

  lemma AtLeastTwo<T>(s: set<T>, x: T, y: T)
    requires x in s && y in s && x != y
    ensures |s| >= 2
  {
    assert y in s - {x};
    assert |s - {x}| >= 1;
  }
}
