/** The cluster as a labelled transition system. A queue `nodes[s].out[t]` is the
    link from `s` to `t`: packets are handled in the order in which they were sent.
    Handlers are atomic. */
module Cluster {
  import opened Bytes
  import opened Messages
  import opened Nodes
  import opened NodeFacts
  import opened Sets

  datatype Cluster = Cluster(nodes: map<int, Node>)

  datatype Label =
    | Accept(s: int, h: Handle)
    | Ask(s: int, h: Handle, q: Request)
    | HangUp(s: int, h: Handle)
    | Deliver(s: int, t: int)
    | Tick(s: int, t: int)
    | LinkDown(s: int, t: int)
    | LinkUp(s: int, t: int, h: Handle)

  /** Ids are map keys, peers are all the others, and a link is up at both ends or at
      neither. */
  ghost predicate Sound(c: Cluster) {
    && (forall s <- c.nodes :: Sane(c.nodes[s]) && c.nodes[s].id == s)
    && (forall s <- c.nodes :: c.nodes[s].out.Keys == c.nodes.Keys - {s})
    && (forall s <- c.nodes, t <- c.nodes :: t in c.nodes[s].up <==> s in c.nodes[t].up)
  }

  ghost predicate Enabled(c: Cluster, l: Label) {
    l.s in c.nodes &&
    match l
    case Accept(s, h) => h !in c.nodes[s].sessions
    case Ask(s, h, q) => h in c.nodes[s].live && h in c.nodes[s].sessions && WellFormed(q)
    case HangUp(s, h) => h in c.nodes[s].live && h in c.nodes[s].sessions
    case Deliver(s, t) => t in c.nodes && s != t && c.nodes[s].Queue(t) != []
    case Tick(s, t) => t in c.nodes && s != t
    case LinkDown(s, t) => t in c.nodes && s != t && t in c.nodes[s].up
    case LinkUp(s, t, h) =>
      t in c.nodes && s != t && t !in c.nodes[s].up &&
      h in c.nodes[t].live && h in c.nodes[t].sessions && !c.nodes[t].sessions[h].authenticated
  }

  function Pop(n: Node, t: int): Node
    requires n.Queue(t) != []
  {
    n.(out := n.out[t := n.Queue(t)[1..]])
  }

  /** The cluster after a step. When a link goes down both ends clean up and what was
      under way in either direction is lost; nothing is sent when it comes back. */
  ghost function Step(c: Cluster, l: Label): (d: Cluster)
    requires Enabled(c, l)
    ensures d.nodes.Keys == c.nodes.Keys
  {
    match l
    case Accept(s, h) => Cluster(c.nodes[s := AcceptSession(c.nodes[s], h)])
    case Ask(s, h, q) => Cluster(c.nodes[s := HandleRequest(c.nodes[s], h, q, {})])
    case HangUp(s, h) => Cluster(c.nodes[s := Hangup(c.nodes[s], h, {})])
    case Deliver(s, t) =>
      Cluster(c.nodes[s := Pop(c.nodes[s], t)][t := Receive(c.nodes[t], s, c.nodes[s].Queue(t)[0])])
    case Tick(s, t) => Cluster(c.nodes[s := Ping(c.nodes[s], t)])
    case LinkDown(s, t) => Cluster(c.nodes[s := PeerDown(c.nodes[s], t)][t := PeerDown(c.nodes[t], s)])
    case LinkUp(s, t, h) => Cluster(c.nodes[s := PeerUp(c.nodes[s], t)][t := Promote(c.nodes[t], h, s)])
  }

  /** A run: every step is enabled and obeys `rule` where it is taken. */
  ghost predicate Run(rule: (Cluster, Label) -> bool, c: Cluster, ls: seq<Label>)
    decreases |ls|
  {
    ls == [] || (Enabled(c, ls[0]) && rule(c, ls[0]) && Run(rule, Step(c, ls[0]), ls[1..]))
  }

  ghost function End(rule: (Cluster, Label) -> bool, c: Cluster, ls: seq<Label>): Cluster
    requires Run(rule, c, ls)
    decreases |ls|
  {
    if ls == [] then c else End(rule, Step(c, ls[0]), ls[1..])
  }

  /** The start: no users, no rooms, no sessions, nothing under way. */
  ghost predicate Initial(c: Cluster) {
    Sound(c) &&
    forall s <- c.nodes ::
      var n := c.nodes[s];
      n.users == map[] && n.rooms == map[] && n.sessions == map[] && n.live == {} && n.byName == map[] &&
      forall t <- n.out :: n.out[t] == []
  }

  ghost predicate FullMesh(c: Cluster) {
    forall s <- c.nodes :: c.nodes[s].up == c.nodes.Keys - {s}
  }

  // What one step does to the tables.

  function PeerDownTables(n: Node, p: int): Node {
    if p !in n.up then n else Cut(n, p)
  }

  /** A step without its messages to clients. */
  ghost function Tables(c: Cluster, l: Label): (d: Cluster)
    requires Enabled(c, l)
    ensures d.nodes.Keys == c.nodes.Keys
  {
    match l
    case Accept(s, h) => Cluster(c.nodes[s := AcceptSession(c.nodes[s], h)])
    case Ask(s, h, q) => Cluster(c.nodes[s := Emit(TablesAfter(c.nodes[s], h, q), EmissionOf(c.nodes[s], h, q))])
    case HangUp(s, h) => Cluster(c.nodes[s := Emit(TablesAfterHangup(c.nodes[s], h), EmissionOfHangup(c.nodes[s], h))])
    case Deliver(s, t) =>
      Cluster(c.nodes[s := Pop(c.nodes[s], t)][t := TablesAfterReceive(c.nodes[t], s, c.nodes[s].Queue(t)[0])])
    case Tick(s, t) => Cluster(c.nodes[s := Spread(c.nodes[s], {t} * c.nodes[s].up, Heartbeat)])
    case LinkDown(s, t) => Cluster(c.nodes[s := PeerDownTables(c.nodes[s], t)][t := PeerDownTables(c.nodes[t], s)])
    case LinkUp(s, t, h) => Cluster(c.nodes[s := PeerUp(c.nodes[s], t)][t := Promote(c.nodes[t], h, s)])
  }

  ghost predicate SameTables(a: Cluster, b: Cluster) {
    a.nodes.Keys == b.nodes.Keys && forall s <- a.nodes :: Core(a.nodes[s]) == Core(b.nodes[s])
  }

  lemma PeerDownCore(n: Node, p: int)
    ensures Core(PeerDown(n, p)) == Core(PeerDownTables(n, p))
  {
    if p in n.up {
      var cut := PeerDownTables(n, p);
      CorePost(cut, cut.Authenticated() - {}, Presence(cut.users.Keys));
    }
  }

  lemma StepTables(c: Cluster, l: Label)
    requires Sound(c) && Enabled(c, l)
    ensures SameTables(Step(c, l), Tables(c, l))
  {
    var n := c.nodes[l.s];
    match l
    case Ask(s, h, q) => RequestCore(n, h, q);
    case HangUp(s, h) => HangupCore(n, h);
    case Deliver(s, t) => DeliverTables(c, s, t);
    case Tick(s, t) => SendOneSpreads(n, t, Heartbeat);
    case LinkDown(s, t) => LinkDownTables(c, s, t);
    case _ =>
  }

  lemma DeliverTables(c: Cluster, s: int, t: int)
    requires Sound(c) && Enabled(c, Deliver(s, t))
    ensures SameTables(Step(c, Deliver(s, t)), Tables(c, Deliver(s, t)))
  {
    ReceiveCore(c.nodes[t], s, c.nodes[s].Queue(t)[0]);
  }

  lemma LinkDownTables(c: Cluster, s: int, t: int)
    requires Sound(c) && Enabled(c, LinkDown(s, t))
    ensures SameTables(Step(c, LinkDown(s, t)), Tables(c, LinkDown(s, t)))
  {
    PeerDownCore(c.nodes[s], t);
    PeerDownCore(c.nodes[t], s);
  }

  lemma SameSessions(n: Node, k: Node, h: Handle)
    requires Core(n) == Core(k) && h in n.sessions
    ensures h in k.sessions && n.sessions[h].name == k.sessions[h].name
    ensures n.sessions[h].authenticated == k.sessions[h].authenticated
    ensures n.sessions[h].rooms == k.sessions[h].rooms
  {
    assert h in Core(n).sessions;
    assert Core(n).sessions[h] == Core(k).sessions[h];
  }

  lemma SaneTables(n: Node, k: Node)
    requires Core(n) == Core(k) && Sane(k)
    ensures Sane(n)
  {
    assert n.sessions.Keys == Core(n).sessions.Keys == k.sessions.Keys;
    forall h | h in n.sessions
      ensures NulFree(n.sessions[h].name) && (n.sessions[h].authenticated <==> n.sessions[h].name != [])
    {
      SameSessions(n, k, h);
    }
  }

  lemma SpreadSane(n: Node, targets: set<int>, m: Message)
    requires Sane(n) && targets <= n.up
    ensures Sane(Spread(n, targets, m))
  {
  }

  lemma RegisterSane(n: Node, h: Handle, name: Text)
    requires Sane(n) && h in n.sessions && ValidName(name)
    ensures Sane(Register(n, h, name))
  {
  }

  lemma RoomTablesSane(n: Node, h: Handle, joined: set<Text>, rooms: map<Text, Room>)
    requires Sane(n) && h in n.sessions
    ensures Sane(n.(sessions := n.sessions[h := n.sessions[h].(rooms := joined)], rooms := rooms))
    ensures Sane(n.(rooms := rooms))
  {
  }

  lemma TablesAfterSane(n: Node, h: Handle, q: Request)
    requires Sane(n) && h in n.sessions && WellFormed(q)
    ensures Sane(TablesAfter(n, h, q))
    ensures EmissionOf(n, h, q).To? ==> EmissionOf(n, h, q).targets <= n.up
    ensures TablesAfter(n, h, q).up == n.up && TablesAfter(n, h, q).id == n.id
    ensures TablesAfter(n, h, q).out == n.out
  {
    var k := TablesAfter(n, h, q);
    match q
    case Login(name) => if ValidName(name) { RegisterSane(n, h, name); }
    case Join(room) => RoomTablesSane(n, h, k.sessions[h].rooms, k.rooms);
    case Leave(room) => RoomTablesSane(n, h, k.sessions[h].rooms, k.rooms);
    case _ =>
  }

  /** Soundness is kept by every step. */
  lemma StepSound(c: Cluster, l: Label)
    requires Sound(c) && Enabled(c, l)
    ensures Sound(Step(c, l))
  {
    StepTables(c, l);
    var a, b := Step(c, l), Tables(c, l);
    TablesSound(c, l);
    forall s | s in a.nodes
      ensures Sane(a.nodes[s])
    {
      SaneTables(a.nodes[s], b.nodes[s]);
    }
  }

  /** Replacing one server by a sane one with the same links keeps soundness. */
  lemma SoundUpdate(c: Cluster, s: int, k: Node)
    requires Sound(c) && s in c.nodes && Sane(k)
    requires k.id == s && k.out.Keys == c.nodes[s].out.Keys && k.up == c.nodes[s].up
    ensures Sound(Cluster(c.nodes[s := k]))
  {
  }

  /** Likewise for the two ends of a link that goes up or down. */
  lemma SoundLink(c: Cluster, s: int, t: int, a: Node, b: Node, link: bool)
    requires Sound(c) && s in c.nodes && t in c.nodes && s != t
    requires Sane(a) && a.id == s && a.out.Keys == c.nodes[s].out.Keys
    requires Sane(b) && b.id == t && b.out.Keys == c.nodes[t].out.Keys
    requires a.up == if link then c.nodes[s].up + {t} else c.nodes[s].up - {t}
    requires b.up == if link then c.nodes[t].up + {s} else c.nodes[t].up - {s}
    ensures Sound(Cluster(c.nodes[s := a][t := b]))
  {
  }

  lemma PeerDownSane(n: Node, p: int)
    requires Sane(n) && p in n.up
    ensures Sane(PeerDownTables(n, p))
  {
  }

  lemma PromoteSane(n: Node, h: Handle, p: int)
    requires Sane(n) && h in n.live && p in n.out
    ensures Sane(Promote(n, h, p))
  {
  }

  lemma HangupSane(n: Node, h: Handle)
    requires Sane(n) && h in n.live
    ensures Sane(TablesAfterHangup(n, h))
  {
  }

  lemma ReceiveSane(n: Node, p: int, m: Message)
    requires Sane(n)
    ensures Sane(TablesAfterReceive(n, p, m))
  {
    SpreadSane(n, {p} * n.up, HeartbeatAck);
  }

  lemma EmitSane(n: Node, e: Emission)
    requires Sane(n) && (e.To? ==> e.targets <= n.up)
    ensures Sane(Emit(n, e))
  {
    if e.To? { SpreadSane(n, e.targets, e.m); }
  }

  lemma PopSane(n: Node, t: int)
    requires Sane(n) && n.Queue(t) != []
    ensures Sane(Pop(n, t))
  {
  }

  lemma AskSound(c: Cluster, s: int, h: Handle, q: Request)
    requires Sound(c) && Enabled(c, Ask(s, h, q))
    ensures Sound(Tables(c, Ask(s, h, q)))
  {
    var n := c.nodes[s];
    TablesAfterSane(n, h, q);
    EmitSane(TablesAfter(n, h, q), EmissionOf(n, h, q));
    SoundUpdate(c, s, Emit(TablesAfter(n, h, q), EmissionOf(n, h, q)));
  }

  lemma HangUpSound(c: Cluster, s: int, h: Handle)
    requires Sound(c) && Enabled(c, HangUp(s, h))
    ensures Sound(Tables(c, HangUp(s, h)))
  {
    var n := c.nodes[s];
    HangupSane(n, h);
    EmitSane(TablesAfterHangup(n, h), EmissionOfHangup(n, h));
    SoundUpdate(c, s, Emit(TablesAfterHangup(n, h), EmissionOfHangup(n, h)));
  }

  lemma DeliverSound(c: Cluster, s: int, t: int)
    requires Sound(c) && Enabled(c, Deliver(s, t))
    ensures Sound(Tables(c, Deliver(s, t)))
  {
    var n, k := c.nodes[s], c.nodes[t];
    var m := n.Queue(t)[0];
    PopSane(n, t);
    ReceiveSane(k, s, m);
    ReceiveLinks(k, s, m);
    SoundPair(c, s, t, Pop(n, t), TablesAfterReceive(k, s, m));
  }

  lemma ReceiveLinks(n: Node, p: int, m: Message)
    ensures var k := TablesAfterReceive(n, p, m); k.id == n.id && k.up == n.up && k.out.Keys == n.out.Keys
  {
  }

  /** Replacing two servers by sane ones with the same links. */
  lemma SoundPair(c: Cluster, s: int, t: int, a: Node, b: Node)
    requires Sound(c) && s in c.nodes && t in c.nodes && s != t && Sane(a) && Sane(b)
    requires a.id == s && a.out.Keys == c.nodes[s].out.Keys && a.up == c.nodes[s].up
    requires b.id == t && b.out.Keys == c.nodes[t].out.Keys && b.up == c.nodes[t].up
    ensures Sound(Cluster(c.nodes[s := a][t := b]))
  {
    SoundUpdate(c, s, a);
    SoundUpdate(Cluster(c.nodes[s := a]), t, b);
  }

  lemma LinkUpSound(c: Cluster, s: int, t: int, h: Handle)
    requires Sound(c) && Enabled(c, LinkUp(s, t, h))
    ensures Sound(Tables(c, LinkUp(s, t, h)))
  {
    PromoteSane(c.nodes[t], h, s);
    SoundLink(c, s, t, PeerUp(c.nodes[s], t), Promote(c.nodes[t], h, s), true);
  }

  lemma LinkDownSound(c: Cluster, s: int, t: int)
    requires Sound(c) && Enabled(c, LinkDown(s, t))
    ensures Sound(Tables(c, LinkDown(s, t)))
  {
    PeerDownSane(c.nodes[s], t);
    PeerDownSane(c.nodes[t], s);
    SoundLink(c, s, t, PeerDownTables(c.nodes[s], t), PeerDownTables(c.nodes[t], s), false);
  }

  lemma TablesSound(c: Cluster, l: Label)
    requires Sound(c) && Enabled(c, l)
    ensures Sound(Tables(c, l))
  {
    match l
    case Accept(s, h) => SoundUpdate(c, s, AcceptSession(c.nodes[s], h));
    case Ask(s, h, q) => AskSound(c, s, h, q);
    case HangUp(s, h) => HangUpSound(c, s, h);
    case Deliver(s, t) => DeliverSound(c, s, t);
    case Tick(s, t) =>
      SpreadSane(c.nodes[s], {t} * c.nodes[s].up, Heartbeat);
      SoundUpdate(c, s, Spread(c.nodes[s], {t} * c.nodes[s].up, Heartbeat));
    case LinkDown(s, t) => LinkDownSound(c, s, t);
    case LinkUp(s, t, h) => LinkUpSound(c, s, t, h);
  }

  // Quantities added up over the servers.

  ghost function Total(c: Cluster, w: Node -> nat): nat {
    Sum(c.nodes.Keys, s => Share(c, w, s))
  }

  ghost function Share(c: Cluster, w: Node -> nat, s: int): nat {
    if s in c.nodes then w(c.nodes[s]) else 0
  }

  lemma TotalUpdate(c: Cluster, w: Node -> nat, s: int, k: Node)
    requires s in c.nodes
    ensures Total(Cluster(c.nodes[s := k]), w) + w(c.nodes[s]) == Total(c, w) + w(k)
  {
    var d := Cluster(c.nodes[s := k]);
    assert d.nodes.Keys == c.nodes.Keys;
    SumChange(c.nodes.Keys, x => Share(c, w, x), x => Share(d, w, x), s);
  }

  lemma TotalUpdateTwo(c: Cluster, w: Node -> nat, s: int, a: Node, t: int, b: Node)
    requires s in c.nodes && t in c.nodes && s != t
    ensures Total(Cluster(c.nodes[s := a][t := b]), w) + w(c.nodes[s]) + w(c.nodes[t]) == Total(c, w) + w(a) + w(b)
  {
    TotalUpdate(c, w, s, a);
    TotalUpdate(Cluster(c.nodes[s := a]), w, t, b);
  }

  lemma TotalSame(a: Cluster, b: Cluster, w: Node -> nat)
    requires a.nodes.Keys == b.nodes.Keys && forall s <- a.nodes :: w(a.nodes[s]) == w(b.nodes[s])
    ensures Total(a, w) == Total(b, w)
  {
    assert forall x <- a.nodes.Keys :: Share(a, w, x) == Share(b, w, x);
    SumSame(a.nodes.Keys, x => Share(a, w, x), x => Share(b, w, x));
  }
}
