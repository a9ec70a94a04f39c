/** Who stays connected and in the room gets the message. A session that does not hang
    up, on a server whose links stay up, keeps its name and its place in its rooms, as
    long as logins under that name keep to the discipline. */
module Staying {
  import opened Bytes
  import opened Messages
  import opened Nodes
  import opened NodeFacts
  import opened Cluster
  import opened RoomRoutes
  import opened Sessions
  import opened Directory
  import opened Quiescence
  import opened Chats
  import opened Delivery
  import opened ExactlyOnce

  // One server.

  /** Session `g` alone is known as `u`. */
  ghost predicate Registered(n: Node, g: Handle, u: Text) {
    && g in n.live && g in n.sessions && n.sessions[g].name == u && u != []
    && u in n.byName && n.byName[u] == g && n.Location(u) == Some(n.id)
    && forall h | h in n.live && h in n.sessions && n.sessions[h].name == u :: h == g
  }

  /** Nobody here is known as `u`. */
  ghost predicate Unknown(n: Node, u: Text) {
    forall h | h in n.live && h in n.sessions :: n.sessions[h].name != u
  }

  lemma AskRegistered(n: Node, h: Handle, q: Request, g: Handle, u: Text)
    requires Sane(n) && Registered(n, g, u) && h in n.live && h in n.sessions && LogsInOnce(n, h, q)
    ensures Registered(TablesAfter(n, h, q), g, u)
  {
    match q
    case Login(name) => assert u in n.users && n.sessions[g].authenticated;
    case _ =>
  }

  lemma AskUnknown(n: Node, h: Handle, q: Request, u: Text)
    requires Unknown(n, u) && h in n.live && h in n.sessions
    requires !(q == Login(u) && ValidName(u) && u !in n.users)
    ensures Unknown(TablesAfter(n, h, q), u)
  {
  }

  lemma EmitRegistered(n: Node, e: Emission, g: Handle, u: Text)
    ensures Registered(n, g, u) ==> Registered(Emit(n, e), g, u)
    ensures Unknown(n, u) ==> Unknown(Emit(n, e), u)
  {
  }

  lemma HangupRegistered(n: Node, h: Handle, g: Handle, u: Text)
    requires Sane(n) && Registered(n, g, u) && h in n.live && h != g
    ensures Registered(TablesAfterHangup(n, h), g, u)
  {
    assert n.sessions[h].name != u;
  }

  lemma HangupUnknown(n: Node, h: Handle, u: Text)
    requires Unknown(n, u) && h in n.sessions
    ensures Unknown(TablesAfterHangup(n, h), u)
  {
  }

  lemma AcceptRegistered(n: Node, h: Handle, g: Handle, u: Text)
    requires h !in n.sessions && u != []
    ensures Registered(n, g, u) ==> Registered(AcceptSession(n, h), g, u)
    ensures Unknown(n, u) ==> Unknown(AcceptSession(n, h), u)
  {
  }

  lemma ReceiveRegistered(n: Node, p: int, m: Message, g: Handle, u: Text)
    ensures Registered(n, g, u) && !NewsOf(m, u) ==> Registered(TablesAfterReceive(n, p, m), g, u)
    ensures Unknown(n, u) ==> Unknown(TablesAfterReceive(n, p, m), u)
  {
    ReceiveUsers(n, p, m, u);
  }

  lemma PopRegistered(n: Node, p: int, g: Handle, u: Text)
    requires n.Queue(p) != []
    ensures Registered(n, g, u) ==> Registered(Pop(n, p), g, u)
    ensures Unknown(n, u) ==> Unknown(Pop(n, p), u)
  {
  }

  lemma LinkUnknown(n: Node, p: int, u: Text)
    ensures Unknown(n, u) ==> Unknown(PeerDownTables(n, p), u) && Unknown(PeerUp(n, p), u)
  {
  }

  lemma PromoteRegistered(n: Node, h: Handle, p: int, g: Handle, u: Text)
    requires Sane(n) && h in n.sessions && !n.sessions[h].authenticated
    ensures Registered(n, g, u) ==> Registered(PeerUp(n, p), g, u) && Registered(Promote(n, h, p), g, u)
    ensures Unknown(n, u) ==> Unknown(Promote(n, h, p), u)
  {
    assert n.sessions[h].name == [];
  }

  lemma UpRegistered(n: Node, p: int, g: Handle, u: Text)
    ensures Registered(n, g, u) ==> Registered(PeerUp(n, p), g, u)
  {
  }

  lemma SameRegistered(n: Node, k: Node, g: Handle, u: Text)
    requires Core(n) == Core(k)
    ensures Registered(k, g, u) ==> Registered(n, g, u)
    ensures Unknown(k, u) ==> Unknown(n, u)
  {
    assert n.sessions.Keys == Core(n).sessions.Keys == k.sessions.Keys;
    forall h | h in n.sessions
      ensures n.sessions[h].name == k.sessions[h].name
    {
      SameSessions(n, k, h);
    }
    assert n.live == Core(n).live == k.live && n.byName == Core(n).byName == k.byName;
    assert n.users == Core(n).users == k.users && n.id == Core(n).id == k.id;
  }

  // The cluster.

  /** `g` at `t` is the one session known as `u`, and every directory, with what is under
      way folded in, says so. */
  ghost predicate InPlace(c: Cluster, t: int, g: Handle, u: Text) {
    && t in c.nodes && Owned(c, u, t) && Exact(c, u, t) && c.nodes[t].up == c.nodes.Keys - {t}
    && Known(c, t, g, u)
  }

  ghost predicate Known(c: Cluster, t: int, g: Handle, u: Text)
    requires t in c.nodes
  {
    Registered(c.nodes[t], g, u) && forall x <- c.nodes | x != t :: Unknown(c.nodes[x], u)
  }

  /** Session `g` at `t`, known as `u`, does not hang up, no link of `t` is lost, sessions
      log in once, and under the name `u` only where no news of `u` is under way from
      another server. */
  predicate Stays(t: int, g: Handle, u: Text, c: Cluster, l: Label) {
    && OneLogin(c, l)
    && (l.LinkDown? ==> l.s != t && l.t != t)
    && l != HangUp(t, g)
    && (LogsIn(c, l, u, l.s) ==> NoForeignNews(c, u, l.s))
  }

  lemma NobodyElseLogsIn(c: Cluster, l: Label, t: int, g: Handle, u: Text)
    requires InPlace(c, t, g, u) && Enabled(c, l) && Stays(t, g, u, c, l)
    ensures !LogsIn(c, l, u, l.s) && forall s :: !LogsIn(c, l, u, s)
  {
    if l.s != t && NoForeignNews(c, u, l.s) {
      KnownWithoutNews(c, t, g, u, l.s);
    }
  }

  /** A server that has no news of `u` coming has heard already where `u` is. */
  lemma KnownWithoutNews(c: Cluster, t: int, g: Handle, u: Text, s: int)
    requires InPlace(c, t, g, u) && s in c.nodes && s != t && NoForeignNews(c, u, s)
    ensures u in c.nodes[s].users
  {
    assert NoNews(c.nodes[t].Queue(s), u);
    UserFoldNoNews(c.nodes[t].Queue(s), u, c.nodes[s].Location(u));
    assert UserView(c, t, s, u) == c.nodes[t].Location(u);
  }

  lemma KnownAtHost(c: Cluster, t: int, g: Handle, u: Text)
    requires t in c.nodes && Known(c, t, g, u)
    ensures AllNamedAtHost(c, u)
  {
    forall x <- c.nodes
      ensures NamedAtHost(c.nodes[x], u)
    {
      assert x != t ==> Unknown(c.nodes[x], u);
    }
  }

  lemma KnownUpdate(c: Cluster, t: int, g: Handle, u: Text, x: int, k: Node)
    requires t in c.nodes && x in c.nodes && Known(c, t, g, u)
    requires if x == t then Registered(k, g, u) else Unknown(k, u)
    ensures Known(Cluster(c.nodes[x := k]), t, g, u)
  {
    var d := Cluster(c.nodes[x := k]);
    forall y <- d.nodes | y != t
      ensures Unknown(d.nodes[y], u)
    {
      assert Unknown(c.nodes[y], u);
    }
  }

  lemma AskKnown(c: Cluster, x: int, h: Handle, q: Request, t: int, g: Handle, u: Text)
    requires Sound(c) && t in c.nodes && Known(c, t, g, u) && Enabled(c, Ask(x, h, q)) && LogsInOnce(c.nodes[x], h, q)
    requires !LogsIn(c, Ask(x, h, q), u, x)
    ensures Known(Tables(c, Ask(x, h, q)), t, g, u)
  {
    var n := c.nodes[x];
    var k, e := TablesAfter(n, h, q), EmissionOf(n, h, q);
    if x == t {
      AskRegistered(n, h, q, g, u);
    } else {
      assert Unknown(n, u);
      AskUnknown(n, h, q, u);
    }
    EmitRegistered(k, e, g, u);
    KnownUpdate(c, t, g, u, x, Emit(k, e));
  }

  lemma HangupKnown(c: Cluster, x: int, h: Handle, t: int, g: Handle, u: Text)
    requires Sound(c) && t in c.nodes && Known(c, t, g, u) && Enabled(c, HangUp(x, h)) && !(x == t && h == g)
    ensures Known(Tables(c, HangUp(x, h)), t, g, u)
  {
    var n := c.nodes[x];
    var k, e := TablesAfterHangup(n, h), EmissionOfHangup(n, h);
    if x == t {
      HangupRegistered(n, h, g, u);
    } else {
      assert Unknown(n, u);
      HangupUnknown(n, h, u);
    }
    EmitRegistered(k, e, g, u);
    KnownUpdate(c, t, g, u, x, Emit(k, e));
  }

  lemma DeliverKnown(c: Cluster, x: int, y: int, t: int, g: Handle, u: Text)
    requires Sound(c) && Owned(c, u, t) && Known(c, t, g, u) && Enabled(c, Deliver(x, y))
    ensures Known(Tables(c, Deliver(x, y)), t, g, u)
  {
    var m := c.nodes[x].Queue(y)[0];
    assert m in c.nodes[x].Queue(y);
    assert x == t || NoNews(c.nodes[x].Queue(y), u);
    assert x != t ==> Unknown(c.nodes[x], u);
    assert y != t ==> Unknown(c.nodes[y], u);
    PopRegistered(c.nodes[x], y, g, u);
    KnownUpdate(c, t, g, u, x, Pop(c.nodes[x], y));
    ReceiveRegistered(c.nodes[y], x, m, g, u);
    KnownUpdate(Cluster(c.nodes[x := Pop(c.nodes[x], y)]), t, g, u, y, TablesAfterReceive(c.nodes[y], x, m));
  }

  lemma LinkDownKnown(c: Cluster, x: int, y: int, t: int, g: Handle, u: Text)
    requires t in c.nodes && Known(c, t, g, u) && Enabled(c, LinkDown(x, y)) && x != t && y != t
    ensures Known(Tables(c, LinkDown(x, y)), t, g, u)
  {
    assert Unknown(c.nodes[x], u) && Unknown(c.nodes[y], u);
    LinkUnknown(c.nodes[x], y, u);
    LinkUnknown(c.nodes[y], x, u);
    KnownUpdate(c, t, g, u, x, PeerDownTables(c.nodes[x], y));
    KnownUpdate(Cluster(c.nodes[x := PeerDownTables(c.nodes[x], y)]), t, g, u, y, PeerDownTables(c.nodes[y], x));
  }

  lemma LinkUpKnown(c: Cluster, x: int, y: int, h: Handle, t: int, g: Handle, u: Text)
    requires Sound(c) && t in c.nodes && Known(c, t, g, u) && Enabled(c, LinkUp(x, y, h))
    ensures Known(Tables(c, LinkUp(x, y, h)), t, g, u)
  {
    assert x != t ==> Unknown(c.nodes[x], u);
    assert y != t ==> Unknown(c.nodes[y], u);
    LinkUnknown(c.nodes[x], y, u);
    UpRegistered(c.nodes[x], y, g, u);
    PromoteRegistered(c.nodes[y], h, x, g, u);
    KnownUpdate(c, t, g, u, x, PeerUp(c.nodes[x], y));
    KnownUpdate(Cluster(c.nodes[x := PeerUp(c.nodes[x], y)]), t, g, u, y, Promote(c.nodes[y], h, x));
  }

  lemma TablesKnown(c: Cluster, l: Label, t: int, g: Handle, u: Text)
    requires Sound(c) && InPlace(c, t, g, u) && Enabled(c, l) && Stays(t, g, u, c, l)
    ensures Known(Tables(c, l), t, g, u)
  {
    NobodyElseLogsIn(c, l, t, g, u);
    var n := c.nodes[l.s];
    assert l.s != t ==> Unknown(n, u);
    match l
    case Accept(x, h) =>
      AcceptRegistered(n, h, g, u);
      KnownUpdate(c, t, g, u, x, AcceptSession(n, h));
    case Ask(x, h, q) => AskKnown(c, x, h, q, t, g, u);
    case HangUp(x, h) => HangupKnown(c, x, h, t, g, u);
    case Deliver(x, y) => DeliverKnown(c, x, y, t, g, u);
    case Tick(x, y) =>
      EmitRegistered(n, To({y} * n.up, Heartbeat), g, u);
      KnownUpdate(c, t, g, u, x, Emit(n, To({y} * n.up, Heartbeat)));
    case LinkDown(x, y) => LinkDownKnown(c, x, y, t, g, u);
    case LinkUp(x, y, h) => LinkUpKnown(c, x, y, h, t, g, u);
  }

  lemma SameKnown(a: Cluster, b: Cluster, t: int, g: Handle, u: Text)
    requires SameTables(a, b) && t in b.nodes && Known(b, t, g, u)
    ensures Known(a, t, g, u)
  {
    SameRegistered(a.nodes[t], b.nodes[t], g, u);
    forall x <- a.nodes | x != t
      ensures Unknown(a.nodes[x], u)
    {
      assert Unknown(b.nodes[x], u);
      SameRegistered(a.nodes[x], b.nodes[x], g, u);
    }
  }

  lemma StepKnown(c: Cluster, l: Label, t: int, g: Handle, u: Text)
    requires Sound(c) && InPlace(c, t, g, u) && Enabled(c, l) && Stays(t, g, u, c, l)
    ensures Known(Step(c, l), t, g, u)
  {
    StepTables(c, l);
    TablesKnown(c, l, t, g, u);
    SameKnown(Step(c, l), Tables(c, l), t, g, u);
  }

  lemma StepLinks(c: Cluster, l: Label, t: int)
    requires Sound(c) && Honest(c) && t in c.nodes && c.nodes[t].up == c.nodes.Keys - {t} && Enabled(c, l)
    requires l.LinkDown? ==> l.s != t && l.t != t
    ensures Step(c, l).nodes[t].up == c.nodes.Keys - {t}
  {
    forall x | x in c.nodes && x != t
      ensures x in Step(c, l).nodes[t].up
    {
      StepLink(c, l, t, x);
    }
    StepSound(c, l);
    AllLinks(Step(c, l), t);
  }

  lemma AllLinks(d: Cluster, t: int)
    requires Sound(d) && t in d.nodes && forall x <- d.nodes | x != t :: x in d.nodes[t].up
    ensures d.nodes[t].up == d.nodes.Keys - {t}
  {
    SoundLinks(d);
    forall x ensures x in d.nodes[t].up <==> x in d.nodes && x != t {
    }
  }

  lemma StepLink(c: Cluster, l: Label, t: int, x: int)
    requires Sound(c) && Honest(c) && Enabled(c, l) && !IsLinkDown(l, t, x)
    requires t in c.nodes && x in c.nodes && t != x && x in c.nodes[t].up
    ensures x in Step(c, l).nodes[t].up
  {
    StepMoves(c, l, t, x, []);
  }

  lemma StepInPlace(c: Cluster, l: Label, t: int, g: Handle, u: Text)
    requires Sound(c) && Honest(c) && InPlace(c, t, g, u) && Enabled(c, l) && Stays(t, g, u, c, l)
    ensures InPlace(Step(c, l), t, g, u)
  {
    NobodyElseLogsIn(c, l, t, g, u);
    KnownAtHost(c, t, g, u);
    StepOwned(c, l, u, t);
    StepEntries(c, l, t, g, u);
    StepLinks(c, l, t);
    StepKnown(c, l, t, g, u);
  }

  lemma StepEntries(c: Cluster, l: Label, t: int, g: Handle, u: Text)
    requires Sound(c) && Honest(c) && InPlace(c, t, g, u) && Enabled(c, l) && Stays(t, g, u, c, l)
    ensures Exact(Step(c, l), u, t)
  {
    NobodyElseLogsIn(c, l, t, g, u);
    KnownAtHost(c, t, g, u);
    forall x | x in c.nodes && x != t
      ensures EntryMoves(c, Step(c, l), t, x, u)
    {
      StepEntryMoves(c, l, t, x, u);
    }
    MovesExact(c, Step(c, l), u, t);
  }

  /** In every state of an orderly run each session that has logged in is in place. */
  lemma OrderlyInPlace(c: Cluster, t: int, g: Handle)
    requires DirectoryOk(c) && t in c.nodes && g in c.nodes[t].live && g in c.nodes[t].sessions
    requires c.nodes[t].sessions[g].name != []
    ensures InPlace(c, t, g, c.nodes[t].sessions[g].name)
  {
    var u := c.nodes[t].sessions[g].name;
    assert Settled(c, u);
    var o :| Owned(c, u, o) && Exact(c, u, o);
    assert SessionAgrees(c.nodes[t], g) && NameAgrees(c.nodes[t], u);
    assert EntryFits(c.nodes[t], u, o);
    forall x, h | x in c.nodes && h in c.nodes[x].live && h in c.nodes[x].sessions && c.nodes[x].sessions[h].name == u
      ensures x == t && h == g
    {
      assert SessionAgrees(c.nodes[x], h) && NameAgrees(c.nodes[x], u);
      assert EntryFits(c.nodes[x], u, o);
    }
  }

  // Rooms.

  lemma TablesMember(c: Cluster, l: Label, t: int, g: Handle, u: Text, room: Text)
    requires Sound(c) && InPlace(c, t, g, u) && Enabled(c, l) && Stays(t, g, u, c, l)
    requires u in c.nodes[t].Local(room) && l != Ask(t, g, Leave(room))
    ensures u in Tables(c, l).nodes[t].Local(room)
  {
    match l
    case Ask(x, h, q) => if x == t { AskMember(c.nodes[t], h, q, g, u, room); }
    case Deliver(x, y) => ReceiveRooms(c.nodes[y], x, c.nodes[x].Queue(y)[0], room, t);
    case LinkUp(x, y, h) => LinkUpKeepsRooms(c, x, y, h, t, t, room);
    case HangUp(x, h) => HangupRooms(c.nodes[x], h, room);
    case _ =>
  }

  lemma AskMember(n: Node, h: Handle, q: Request, g: Handle, u: Text, room: Text)
    requires Registered(n, g, u) && h in n.live && h in n.sessions && u in n.Local(room)
    requires !(h == g && q == Leave(room))
    ensures u in Emit(TablesAfter(n, h, q), EmissionOf(n, h, q)).Local(room)
  {
    assert h != g ==> n.sessions[h].name != u;
  }

  lemma StepMember(c: Cluster, l: Label, t: int, g: Handle, u: Text, room: Text)
    requires Sound(c) && InPlace(c, t, g, u) && Enabled(c, l) && Stays(t, g, u, c, l)
    requires u in c.nodes[t].Local(room) && l != Ask(t, g, Leave(room))
    ensures u in Step(c, l).nodes[t].Local(room)
  {
    StepTables(c, l);
    TablesMember(c, l, t, g, u, room);
    assert Core(Step(c, l).nodes[t]) == Core(Tables(c, l).nodes[t]);
  }

  // Copies.

  /** The chat is meant for `g`, known as `u`, as long as `g` stays. */
  predicate MeantFor(n: Node, k: Chat, u: Text) {
    match k
    case PrivateChat(_, receiver, _) => receiver == u
    case RoomChat(_, room, _) => u in n.Local(room)
    case BroadcastChat(_, _) => true
  }

  lemma OneReader(n: Node, k: Chat, g: Handle, u: Text)
    requires Sane(n) && NamesMatch(n) && Registered(n, g, u) && MeantFor(n, k, u)
    ensures Readers(n, k, g) == 1
  {
    ReadersAreNamed(n, k, g);
    if k.RoomChat? {
      assert u in NamesOf(n, n.Local(k.room), g);
    }
  }

  /** `g` stays, in the room if the chat is a room message, and nobody asks for the chat
      again. */
  predicate Attached(t: int, g: Handle, u: Text, k: Chat, c: Cluster, l: Label) {
    && Stays(t, g, u, c, l)
    && (k.RoomChat? ==> l != Ask(t, g, Leave(k.room)))
    && !AsksFor(c, l, k)
  }

  lemma StepMeantFor(c: Cluster, l: Label, t: int, g: Handle, u: Text, k: Chat)
    requires Sound(c) && InPlace(c, t, g, u) && Enabled(c, l) && Stays(t, g, u, c, l)
    requires MeantFor(c.nodes[t], k, u) && (k.RoomChat? ==> l != Ask(t, g, Leave(k.room)))
    ensures MeantFor(Step(c, l).nodes[t], k, u)
  {
    if k.RoomChat? { StepMember(c, l, t, g, u, k.room); }
  }

  /** A run in which `g` stays is undisturbed: whenever the chat is handled at `t`, `g` is
      due a copy. */
  lemma {:induction false} StayingIsUndisturbed(c: Cluster, ls: seq<Label>, t: int, g: Handle, u: Text, k: Chat)
    requires Sound(c) && Honest(c) && AllTidy(c) && InPlace(c, t, g, u) && MeantFor(c.nodes[t], k, u)
    requires Run((d, l) => Attached(t, g, u, k, d, l), c, ls)
    ensures Run((d, l) => Undisturbed(t, g, k, d, l), c, ls)
    ensures End((d, l) => Undisturbed(t, g, k, d, l), c, ls) == End((d, l) => Attached(t, g, u, k, d, l), c, ls)
    decreases |ls|
  {
    if ls != [] {
      var l := ls[0];
      OneReader(c.nodes[t], k, g, u);
      assert Undisturbed(t, g, k, c, l);
      StepSound(c, l);
      StepHonest(c, l);
      StepTidy(c, l);
      StepInPlace(c, l, t, g, u);
      StepMeantFor(c, l, t, g, u, k);
      StayingIsUndisturbed(Step(c, l), ls[1..], t, g, u, k);
    }
  }

  /** What an orderly run leads to, and what the request does not disturb. */
  lemma OrderlyState(c: Cluster, ls: seq<Label>)
    requires Initial(c) && FullMesh(c) && c.nodes != map[] && Run(Orderly, c, ls)
    ensures var d := End(Orderly, c, ls);
            d.nodes.Keys == c.nodes.Keys && DirectoryOk(d) && AllTidy(d)
    ensures Run(Steady, c, ls) && End(Steady, c, ls) == End(Orderly, c, ls)
    ensures Run(OneLogin, c, ls) && End(OneLogin, c, ls) == End(Orderly, c, ls)
  {
    InitialDirectory(c);
    DirectoriesConverge(c, ls);
    WeakerRule(Orderly, Steady, c, ls);
    WeakerRule(Orderly, OneLogin, c, ls);
    EndKeys(Orderly, c, ls);
    InitialTidy(c);
    EndTidy(c, ls);
  }

  lemma AfterTheRequest(d: Cluster, s: int, h: Handle, q: Request, t: int, g: Handle, u: Text, k: Chat,
                        more: seq<Label>)
    requires DirectoryOk(d) && AllTidy(d) && Enabled(d, Ask(s, h, q)) && !q.Login? && !q.Leave?
    requires t in d.nodes && g in d.nodes[t].live && g in d.nodes[t].sessions && d.nodes[t].sessions[g].name == u != []
    requires MeantFor(d.nodes[t], k, u)
    requires Run((e, l) => Attached(t, g, u, k, e, l), Step(d, Ask(s, h, q)), more)
    ensures var e := Step(d, Ask(s, h, q));
            Run((e, l) => Undisturbed(t, g, k, e, l), e, more) &&
            End((e, l) => Undisturbed(t, g, k, e, l), e, more) == End((e, l) => Attached(t, g, u, k, e, l), e, more)
  {
    var l := Ask(s, h, q);
    OrderlyInPlace(d, t, g);
    StepSound(d, l);
    StepHonest(d, l);
    StepTidy(d, l);
    StepInPlace(d, l, t, g, u);
    StepMeantFor(d, l, t, g, u, k);
    StayingIsUndisturbed(Step(d, l), more, t, g, u, k);
  }

  // Exactly one copy.

  /** A room message, sent when no word about the room is on its way to the sender's
      server, gets to every session `g` that is in the room then, anywhere in the cluster:
      as long as `g` stays connected and in the room and the links of its server stay up,
      it ends with exactly one copy, unless the one packet with it is still on its way. */
  lemma RoomMessageExactlyOnce(c: Cluster, ls: seq<Label>, s: int, h: Handle, room: Text, text: Text,
                               more: seq<Label>, t: int, g: Handle, k: Chat)
    requires Initial(c) && FullMesh(c) && Run(Orderly, c, ls) && s in c.nodes && t in c.nodes
    requires Run(OneLogin, c, ls) && Requests(OneLogin, c, ls, k) == 0
    requires var d := End(Orderly, c, ls);
             s in d.nodes && t in d.nodes && NoSync(d, s, room) && Enabled(d, Ask(s, h, RoomText(room, text))) &&
             d.nodes[s].sessions[h].authenticated && room in d.nodes[s].sessions[h].rooms &&
             k == RoomChat(d.nodes[s].sessions[h].name, room, text) &&
             g in d.nodes[t].live && g in d.nodes[t].sessions && room in d.nodes[t].sessions[g].rooms &&
             Run((e, l) => Attached(t, g, d.nodes[t].sessions[g].name, k, e, l),
                 Step(d, Ask(s, h, RoomText(room, text))), more)
    ensures var d := End(Orderly, c, ls);
            var e := End((e, l) => Attached(t, g, d.nodes[t].sessions[g].name, k, e, l),
                         Step(d, Ask(s, h, RoomText(room, text))), more);
            t in e.nodes &&
            ((forall x <- e.nodes :: Carrier(k) !in e.nodes[x].Queue(t)) ==> Received(e.nodes[t], g, CopyOf(k)) == 1)
  {
    OrderlyState(c, ls);
    var d := End(Orderly, c, ls);
    var u := d.nodes[t].sessions[g].name;
    MemberIsNamed(d, t, g, room);
    AfterTheRequest(d, s, h, RoomText(room, text), t, g, u, k, more);
    OrderlyInPlace(d, t, g);
    OneReader(d.nodes[t], k, g, u);
    RoomMessageUndisturbed(c, ls, s, h, room, text, more, t, g, k);
  }

  lemma MemberIsNamed(d: Cluster, t: int, g: Handle, room: Text)
    requires IndexesAgree(d) && t in d.nodes && g in d.nodes[t].live && g in d.nodes[t].sessions
    requires room in d.nodes[t].sessions[g].rooms
    ensures d.nodes[t].sessions[g].name != [] && d.nodes[t].sessions[g].name in d.nodes[t].Local(room)
  {
    assert SessionAgrees(d.nodes[t], g);
  }

  /** A broadcast gets to every session that is logged in when it is asked for and stays. */
  lemma BroadcastExactlyOnce(c: Cluster, ls: seq<Label>, s: int, h: Handle, text: Text,
                             more: seq<Label>, t: int, g: Handle, k: Chat)
    requires Initial(c) && FullMesh(c) && Run(Orderly, c, ls) && s in c.nodes && t in c.nodes
    requires Run(OneLogin, c, ls) && Requests(OneLogin, c, ls, k) == 0
    requires var d := End(Orderly, c, ls);
             s in d.nodes && t in d.nodes && Enabled(d, Ask(s, h, Broadcast(text))) &&
             d.nodes[s].sessions[h].authenticated && k == BroadcastChat(d.nodes[s].sessions[h].name, text) &&
             g in d.nodes[t].live && g in d.nodes[t].sessions && d.nodes[t].sessions[g].authenticated &&
             Run((e, l) => Attached(t, g, d.nodes[t].sessions[g].name, k, e, l),
                 Step(d, Ask(s, h, Broadcast(text))), more)
    ensures var d := End(Orderly, c, ls);
            var e := End((e, l) => Attached(t, g, d.nodes[t].sessions[g].name, k, e, l),
                         Step(d, Ask(s, h, Broadcast(text))), more);
            t in e.nodes &&
            ((forall x <- e.nodes :: Carrier(k) !in e.nodes[x].Queue(t)) ==> Received(e.nodes[t], g, CopyOf(k)) == 1)
  {
    OrderlyState(c, ls);
    var d := End(Orderly, c, ls);
    var u := d.nodes[t].sessions[g].name;
    assert Sane(d.nodes[t]);
    AfterTheRequest(d, s, h, Broadcast(text), t, g, u, k, more);
    BroadcastUndisturbed(c, ls, s, h, text, more, t, g, k);
  }

  /** A private message, sent when no news of the receiver is under way, gets to the
      session with the receiver's name, wherever in the cluster it is, if it stays. */
  lemma PrivateMessageExactlyOnce(c: Cluster, ls: seq<Label>, s: int, h: Handle, u: Text, text: Text,
                                  more: seq<Label>, t: int, g: Handle, k: Chat)
    requires Initial(c) && FullMesh(c) && Run(Orderly, c, ls) && s in c.nodes && t in c.nodes
    requires Run(OneLogin, c, ls) && Requests(OneLogin, c, ls, k) == 0
    requires var d := End(Orderly, c, ls);
             s in d.nodes && t in d.nodes && NothingAbout(d, u) && Enabled(d, Ask(s, h, Private(u, text))) &&
             d.nodes[s].sessions[h].authenticated && k == PrivateChat(d.nodes[s].sessions[h].name, u, text) &&
             g in d.nodes[t].live && g in d.nodes[t].sessions && d.nodes[t].sessions[g].name == u != [] &&
             Run((e, l) => Attached(t, g, u, k, e, l), Step(d, Ask(s, h, Private(u, text))), more)
    ensures var e := End((e, l) => Attached(t, g, u, k, e, l),
                         Step(End(Orderly, c, ls), Ask(s, h, Private(u, text))), more);
            t in e.nodes &&
            ((forall x <- e.nodes :: Carrier(k) !in e.nodes[x].Queue(t)) ==>
               g in e.nodes[t].sessions && e.nodes[t].sessions[g].name == u && Received(e.nodes[t], g, CopyOf(k)) == 1)
  {
    OrderlyState(c, ls);
    var d := End(Orderly, c, ls);
    AfterTheRequest(d, s, h, Private(u, text), t, g, u, k, more);
    OrderlyInPlace(d, t, g);
    PrivateMessageUndisturbed(c, ls, s, h, u, text, more, t, g, k);
  }

  // At rest.

  /** Deliveries disturb nobody. */
  lemma DeliveriesAttach(c: Cluster, ls: seq<Label>, t: int, g: Handle, u: Text, k: Chat)
    requires Run(DeliveriesOnly, c, ls)
    ensures Run((e, l) => Attached(t, g, u, k, e, l), c, ls)
    ensures End((e, l) => Attached(t, g, u, k, e, l), c, ls) == End(DeliveriesOnly, c, ls)
  {
    WeakerRule(DeliveriesOnly, (e, l) => Attached(t, g, u, k, e, l), c, ls);
  }

  lemma QuietCarriesNothing(d: Cluster, t: int, m: Message)
    requires Quiescence.Quiet(d) && t in d.nodes
    ensures forall x <- d.nodes :: m !in d.nodes[x].Queue(t)
  {
    forall x | x in d.nodes
      ensures m !in d.nodes[x].Queue(t)
    {
      assert d.nodes[x].Queue(t) == [];
    }
  }

  /** Let the cluster come to rest after a room message, in whatever order it handles what
      is under way: every session in the room has exactly one copy. */
  lemma RoomMessageAtRest(c: Cluster, ls: seq<Label>, s: int, h: Handle, room: Text, text: Text,
                          more: seq<Label>, t: int, g: Handle, k: Chat)
    requires Initial(c) && FullMesh(c) && Run(Orderly, c, ls) && s in c.nodes && t in c.nodes
    requires Run(OneLogin, c, ls) && Requests(OneLogin, c, ls, k) == 0
    requires var d := End(Orderly, c, ls);
             s in d.nodes && t in d.nodes && NoSync(d, s, room) && Enabled(d, Ask(s, h, RoomText(room, text))) &&
             d.nodes[s].sessions[h].authenticated && room in d.nodes[s].sessions[h].rooms &&
             k == RoomChat(d.nodes[s].sessions[h].name, room, text) &&
             g in d.nodes[t].live && g in d.nodes[t].sessions && room in d.nodes[t].sessions[g].rooms &&
             ToRest(Step(d, Ask(s, h, RoomText(room, text))), more)
    ensures var e := End(DeliveriesOnly, Step(End(Orderly, c, ls), Ask(s, h, RoomText(room, text))), more);
            t in e.nodes && Received(e.nodes[t], g, CopyOf(k)) == 1
  {
    var d := End(Orderly, c, ls);
    var u := d.nodes[t].sessions[g].name;
    var start := Step(d, Ask(s, h, RoomText(room, text)));
    DeliveriesAttach(start, more, t, g, u, k);
    RoomMessageExactlyOnce(c, ls, s, h, room, text, more, t, g, k);
    QuietCarriesNothing(End(DeliveriesOnly, start, more), t, Carrier(k));
  }

  /** Likewise for a private message and its receiver. */
  lemma PrivateMessageAtRest(c: Cluster, ls: seq<Label>, s: int, h: Handle, u: Text, text: Text,
                             more: seq<Label>, t: int, g: Handle, k: Chat)
    requires Initial(c) && FullMesh(c) && Run(Orderly, c, ls) && s in c.nodes && t in c.nodes
    requires Run(OneLogin, c, ls) && Requests(OneLogin, c, ls, k) == 0
    requires var d := End(Orderly, c, ls);
             s in d.nodes && t in d.nodes && NothingAbout(d, u) && Enabled(d, Ask(s, h, Private(u, text))) &&
             d.nodes[s].sessions[h].authenticated && k == PrivateChat(d.nodes[s].sessions[h].name, u, text) &&
             g in d.nodes[t].live && g in d.nodes[t].sessions && d.nodes[t].sessions[g].name == u != [] &&
             ToRest(Step(d, Ask(s, h, Private(u, text))), more)
    ensures var e := End(DeliveriesOnly, Step(End(Orderly, c, ls), Ask(s, h, Private(u, text))), more);
            t in e.nodes && Received(e.nodes[t], g, CopyOf(k)) == 1
  {
    var start := Step(End(Orderly, c, ls), Ask(s, h, Private(u, text)));
    DeliveriesAttach(start, more, t, g, u, k);
    PrivateMessageExactlyOnce(c, ls, s, h, u, text, more, t, g, k);
    QuietCarriesNothing(End(DeliveriesOnly, start, more), t, Carrier(k));
  }

  /** And for a broadcast and all that are logged in. */
  lemma BroadcastAtRest(c: Cluster, ls: seq<Label>, s: int, h: Handle, text: Text,
                        more: seq<Label>, t: int, g: Handle, k: Chat)
    requires Initial(c) && FullMesh(c) && Run(Orderly, c, ls) && s in c.nodes && t in c.nodes
    requires Run(OneLogin, c, ls) && Requests(OneLogin, c, ls, k) == 0
    requires var d := End(Orderly, c, ls);
             s in d.nodes && t in d.nodes && Enabled(d, Ask(s, h, Broadcast(text))) &&
             d.nodes[s].sessions[h].authenticated && k == BroadcastChat(d.nodes[s].sessions[h].name, text) &&
             g in d.nodes[t].live && g in d.nodes[t].sessions && d.nodes[t].sessions[g].authenticated &&
             ToRest(Step(d, Ask(s, h, Broadcast(text))), more)
    ensures var e := End(DeliveriesOnly, Step(End(Orderly, c, ls), Ask(s, h, Broadcast(text))), more);
            t in e.nodes && Received(e.nodes[t], g, CopyOf(k)) == 1
  {
    var d := End(Orderly, c, ls);
    var u := d.nodes[t].sessions[g].name;
    var start := Step(d, Ask(s, h, Broadcast(text)));
    DeliveriesAttach(start, more, t, g, u, k);
    BroadcastExactlyOnce(c, ls, s, h, text, more, t, g, k);
    QuietCarriesNothing(End(DeliveriesOnly, start, more), t, Carrier(k));
  }
}
