/** Which server hosts a user. Each server keeps a directory; packets about logins and
    logouts keep the others' directories up to date. */
module Directory {
  import opened Bytes
  import opened Messages
  import opened Nodes
  import opened NodeFacts
  import opened Cluster
  import opened RoomRoutes
  import opened Sessions

  predicate NewsOf(m: Message, u: Text) {
    m.ReplicateUser? && m.user == u
  }

  predicate NoNews(q: seq<Message>, u: Text) {
    forall m <- q :: !NewsOf(m, u)
  }

  function UserStep(m: Message, u: Text, entry: Option<int>): Option<int> {
    if NewsOf(m, u) then if m.online then Some(m.server) else None else entry
  }

  /** The directory entry of `u` once the packets of `q` have been handled. */
  function UserFold(q: seq<Message>, u: Text, entry: Option<int>): Option<int> {
    if q == [] then entry else UserFold(q[1..], u, UserStep(q[0], u, entry))
  }

  /** The entry of `u` at `t` after everything under way from `o`. */
  function UserView(c: Cluster, o: int, t: int, u: Text): Option<int>
    requires o in c.nodes && t in c.nodes
  {
    UserFold(c.nodes[o].Queue(t), u, c.nodes[t].Location(u))
  }

  predicate EntryFits(n: Node, u: Text, o: int) {
    n.Location(u) == None || n.Location(u) == Some(o)
  }

  /** Nobody but `o` has news of `u` under way, and nobody places `u` elsewhere. */
  ghost predicate Owned(c: Cluster, u: Text, o: int) {
    && o in c.nodes
    && (forall x <- c.nodes, t <- c.nodes | x != o :: NoNews(c.nodes[x].Queue(t), u))
    && (forall t <- c.nodes :: EntryFits(c.nodes[t], u, o))
  }

  ghost predicate HasOwner(c: Cluster, u: Text) {
    exists o :: Owned(c, u, o)
  }

  /** Every server's entry for `u`, once the packets under way have arrived, is the one
      at `o`. */
  ghost predicate Exact(c: Cluster, u: Text, o: int)
    requires o in c.nodes
  {
    forall t <- c.nodes | t != o :: UserView(c, o, t, u) == c.nodes[o].Location(u)
  }

  ghost predicate Settled(c: Cluster, u: Text) {
    exists o :: Owned(c, u, o) && Exact(c, u, o)
  }

  /** The label logs `u` in on server `s`. */
  predicate LogsIn(c: Cluster, l: Label, u: Text, s: int) {
    l.Ask? && l.s == s && l.q == Login(u) && s in c.nodes && ValidName(u) && u !in c.nodes[s].users
  }

  // One queue.

  lemma {:induction false} UserFoldAppend(q: seq<Message>, m: Message, u: Text, entry: Option<int>)
    ensures UserFold(q + [m], u, entry) == UserStep(m, u, UserFold(q, u, entry))
  {
    if q == [] {
      assert (q + [m])[1..] == [];
    } else {
      assert (q + [m])[1..] == q[1..] + [m];
      UserFoldAppend(q[1..], m, u, UserStep(q[0], u, entry));
    }
  }

  lemma {:induction false} UserFoldNoNews(q: seq<Message>, u: Text, entry: Option<int>)
    requires NoNews(q, u)
    ensures UserFold(q, u, entry) == entry
  {
    if q != [] {
      assert q[0] in q;
      UserFoldNoNews(q[1..], u, entry);
    }
  }

  // One server.

  lemma AskUsers(n: Node, h: Handle, q: Request, u: Text)
    requires h in n.sessions
    ensures var k, e := TablesAfter(n, h, q), EmissionOf(n, h, q);
            var logsIn := q == Login(u) && ValidName(u) && u !in n.users;
            k.Location(u) == (if logsIn then Some(n.id) else n.Location(u)) &&
            (e.To? && NewsOf(e.m, u) <==> logsIn) &&
            (logsIn ==> e == To(n.up, ReplicateUser(u, n.id, true)))
  {
  }

  /** A live session named `u` is where the directory of its server places `u`. */
  predicate NamedAtHost(n: Node, u: Text) {
    forall h | h in n.live && h in n.sessions && n.sessions[h].name == u :: u == [] || n.Location(u) == Some(n.id)
  }

  ghost predicate AllNamedAtHost(c: Cluster, u: Text) {
    forall s <- c.nodes :: NamedAtHost(c.nodes[s], u)
  }

  lemma IndexedAtHost(n: Node, u: Text)
    requires IndexAgrees(n)
    ensures NamedAtHost(n, u)
  {
    forall h | h in n.live && h in n.sessions && n.sessions[h].name == u
      ensures u == [] || n.Location(u) == Some(n.id)
    {
      assert SessionAgrees(n, h) && NameAgrees(n, u);
    }
  }

  lemma AllIndexedAtHost(c: Cluster, u: Text)
    requires IndexesAgree(c)
    ensures AllNamedAtHost(c, u)
  {
    forall s <- c.nodes
      ensures NamedAtHost(c.nodes[s], u)
    {
      IndexedAtHost(c.nodes[s], u);
    }
  }

  lemma HangupUsers(n: Node, h: Handle, u: Text)
    requires Sane(n) && NamedAtHost(n, u) && h in n.live
    ensures var k, e := TablesAfterHangup(n, h), EmissionOfHangup(n, h);
            var leaves := u != [] && n.sessions[h].name == u;
            k.Location(u) == (if leaves then None else n.Location(u)) &&
            (leaves ==> n.Location(u) == Some(n.id)) &&
            (e.To? && NewsOf(e.m, u) <==> leaves) &&
            (leaves ==> e == To(n.up, ReplicateUser(u, n.id, false)))
  {
  }

  lemma ReceiveUsers(n: Node, p: int, m: Message, u: Text)
    ensures TablesAfterReceive(n, p, m).Location(u) == UserStep(m, u, n.Location(u))
  {
  }

  lemma PeerDownUsers(n: Node, p: int, u: Text)
    ensures p in n.up ==> PeerDownTables(n, p).Location(u) ==
                          if n.Location(u) == Some(p) then None else n.Location(u)
    ensures p !in n.up ==> PeerDownTables(n, p) == n
  {
  }

  // Ownership is kept.

  /** Server `x` goes from `n` to `k` and emits `e`; the owner stays `o`. */
  lemma EmitOwned(c: Cluster, x: int, k: Node, e: Emission, u: Text, o: int)
    requires Owned(c, u, o) && x in c.nodes && k.out == c.nodes[x].out
    requires e.To? && NewsOf(e.m, u) ==> x == o
    requires EntryFits(k, u, o)
    ensures Owned(Cluster(c.nodes[x := Emit(k, e)]), u, o)
  {
    var d := Cluster(c.nodes[x := Emit(k, e)]);
    forall y <- d.nodes, t <- d.nodes | y != o
      ensures NoNews(d.nodes[y].Queue(t), u)
    {
      assert NoNews(c.nodes[y].Queue(t), u);
    }
    forall t <- d.nodes
      ensures EntryFits(d.nodes[t], u, o)
    {
      assert EntryFits(c.nodes[t], u, o);
    }
  }

  lemma PopOwned(c: Cluster, x: int, y: int, u: Text, o: int)
    requires Owned(c, u, o) && x in c.nodes && y in c.nodes && c.nodes[x].Queue(y) != []
    ensures Owned(Cluster(c.nodes[x := Pop(c.nodes[x], y)]), u, o)
  {
    var d := Cluster(c.nodes[x := Pop(c.nodes[x], y)]);
    forall z <- d.nodes, t <- d.nodes | z != o
      ensures NoNews(d.nodes[z].Queue(t), u)
    {
      assert NoNews(c.nodes[z].Queue(t), u);
    }
    forall t <- d.nodes
      ensures EntryFits(d.nodes[t], u, o)
    {
      assert EntryFits(c.nodes[t], u, o);
    }
  }

  /** Both ends of a link go up or down: queues only shrink, entries only vanish. */
  lemma LinkOwned(c: Cluster, x: int, y: int, a: Node, b: Node, u: Text, o: int)
    requires Owned(c, u, o) && x in c.nodes && y in c.nodes && x != y
    requires forall t <- c.nodes :: a.Queue(t) == [] || a.Queue(t) == c.nodes[x].Queue(t)
    requires forall t <- c.nodes :: b.Queue(t) == [] || b.Queue(t) == c.nodes[y].Queue(t)
    requires EntryFits(a, u, o) && EntryFits(b, u, o)
    ensures Owned(Cluster(c.nodes[x := a][y := b]), u, o)
  {
    var d := Cluster(c.nodes[x := a][y := b]);
    forall z <- d.nodes, t <- d.nodes | z != o
      ensures NoNews(d.nodes[z].Queue(t), u)
    {
      assert NoNews(c.nodes[z].Queue(t), u);
    }
    forall t <- d.nodes
      ensures EntryFits(d.nodes[t], u, o)
    {
      assert EntryFits(c.nodes[t], u, o);
    }
  }

  lemma DeliverOwned(c: Cluster, x: int, y: int, u: Text, o: int)
    requires Sound(c) && Honest(c) && Owned(c, u, o) && Enabled(c, Deliver(x, y))
    ensures Owned(Tables(c, Deliver(x, y)), u, o)
  {
    var m, n := c.nodes[x].Queue(y)[0], c.nodes[y];
    var k := TablesAfterReceive(n, x, m);
    assert m in c.nodes[x].Queue(y);
    assert HonestNode(c.nodes[x]);
    assert x == o || NoNews(c.nodes[x].Queue(y), u);
    ReceiveUsers(n, x, m, u);
    assert EntryFits(n, u, o);
    PopOwned(c, x, y, u, o);
    var d := Cluster(c.nodes[x := Pop(c.nodes[x], y)]);
    var e := if m.Heartbeat? then To({x} * n.up, HeartbeatAck) else Quiet;
    EmitOwned(d, y, k.(out := n.out), e, u, o);
    assert Emit(k.(out := n.out), e) == k;
  }

  /** A step that logs `u` in nowhere but at its owner keeps the owner. */
  lemma TablesOwned(c: Cluster, l: Label, u: Text, o: int)
    requires Sound(c) && Honest(c) && AllNamedAtHost(c, u) && Owned(c, u, o) && Enabled(c, l)
    requires forall s | LogsIn(c, l, u, s) :: s == o
    ensures Owned(Tables(c, l), u, o)
  {
    var n := c.nodes[l.s];
    assert EntryFits(n, u, o);
    match l
    case Accept(s, h) => EmitOwned(c, s, AcceptSession(n, h), Quiet, u, o);
    case Ask(s, h, q) =>
      AskUsers(n, h, q, u);
      TablesAfterSane(n, h, q);
      assert q == Login(u) && ValidName(u) && u !in n.users ==> LogsIn(c, l, u, s);
      EmitOwned(c, s, TablesAfter(n, h, q), EmissionOf(n, h, q), u, o);
    case HangUp(s, h) =>
      HangupUsers(n, h, u);
      EmitOwned(c, s, TablesAfterHangup(n, h), EmissionOfHangup(n, h), u, o);
    case Deliver(x, y) => DeliverOwned(c, x, y, u, o);
    case Tick(x, y) => EmitOwned(c, x, n, To({y} * n.up, Heartbeat), u, o);
    case LinkDown(x, y) =>
      assert EntryFits(c.nodes[y], u, o);
      PeerDownUsers(n, y, u);
      PeerDownUsers(c.nodes[y], x, u);
      LinkOwned(c, x, y, PeerDownTables(n, y), PeerDownTables(c.nodes[y], x), u, o);
    case LinkUp(x, y, h) => LinkUpOwned(c, x, y, h, u, o);
  }

  lemma LinkUpOwned(c: Cluster, x: int, y: int, h: Handle, u: Text, o: int)
    requires Owned(c, u, o) && Enabled(c, LinkUp(x, y, h))
    ensures Owned(Tables(c, LinkUp(x, y, h)), u, o)
  {
    assert EntryFits(c.nodes[x], u, o) && EntryFits(c.nodes[y], u, o);
    LinkOwned(c, x, y, PeerUp(c.nodes[x], y), Promote(c.nodes[y], h, x), u, o);
  }

  // One entry.

  /** Nothing about the entry of `u` at `t` moved, or it is now right. */
  ghost predicate EntryMoves(c: Cluster, d: Cluster, o: int, t: int, u: Text)
    requires o in c.nodes && t in c.nodes && c.nodes.Keys == d.nodes.Keys
  {
    || (UserView(d, o, t, u) == UserView(c, o, t, u) && d.nodes[o].Location(u) == c.nodes[o].Location(u))
    || UserView(d, o, t, u) == d.nodes[o].Location(u)
  }

  /** The owner goes from `c.nodes[o]` to `k` and emits `e`. */
  lemma EmitEntry(c: Cluster, o: int, k: Node, e: Emission, t: int, u: Text)
    requires o in c.nodes && t in c.nodes && o != t && t in c.nodes[o].up && t in k.out
    requires k.out == c.nodes[o].out
    requires if e.To? && NewsOf(e.m, u)
             then e.targets == c.nodes[o].up && k.Location(u) == UserStep(e.m, u, None)
             else k.Location(u) == c.nodes[o].Location(u)
    ensures EntryMoves(c, Cluster(c.nodes[o := Emit(k, e)]), o, t, u)
  {
    if e.To? && t in e.targets {
      UserFoldAppend(c.nodes[o].Queue(t), e.m, u, c.nodes[t].Location(u));
    }
  }

  lemma DeliverEntry(c: Cluster, x: int, y: int, o: int, t: int, u: Text)
    requires Sound(c) && Honest(c) && Owned(c, u, o) && Enabled(c, Deliver(x, y))
    requires t in c.nodes && o != t
    ensures EntryMoves(c, Tables(c, Deliver(x, y)), o, t, u)
  {
    var m := c.nodes[x].Queue(y)[0];
    assert m in c.nodes[x].Queue(y);
    assert x == o || NoNews(c.nodes[x].Queue(y), u);
    ReceiveUsers(c.nodes[y], x, m, u);
    if y == o {
      ReceiveQueue(c.nodes[o], x, m, t);
      UserFoldAppend(c.nodes[o].Queue(t), HeartbeatAck, u, c.nodes[t].Location(u));
    }
  }

  lemma LinkDownEntry(c: Cluster, x: int, y: int, o: int, t: int, u: Text)
    requires Sound(c) && Owned(c, u, o) && Enabled(c, LinkDown(x, y)) && !IsLinkDown(LinkDown(x, y), o, t)
    requires t in c.nodes && o != t
    ensures EntryMoves(c, Tables(c, LinkDown(x, y)), o, t, u)
  {
    assert EntryFits(c.nodes[o], u, o) && EntryFits(c.nodes[t], u, o);
    PeerDownUsers(c.nodes[x], y, u);
    PeerDownUsers(c.nodes[y], x, u);
  }

  lemma LinkUpEntry(c: Cluster, x: int, y: int, h: Handle, o: int, t: int, u: Text)
    requires Sound(c) && Enabled(c, LinkUp(x, y, h))
    requires o in c.nodes && t in c.nodes && o != t
    ensures EntryMoves(c, Tables(c, LinkUp(x, y, h)), o, t, u)
  {
    LinkUpKeeps(c, x, y, h, o, t, u);
    LinkUpKeeps(c, x, y, h, t, t, u);
  }

  lemma LinkUpKeeps(c: Cluster, x: int, y: int, h: Handle, z: int, t: int, u: Text)
    requires Enabled(c, LinkUp(x, y, h)) && z in c.nodes
    ensures var d := Tables(c, LinkUp(x, y, h));
            d.nodes[z].Location(u) == c.nodes[z].Location(u) && d.nodes[z].Queue(t) == c.nodes[z].Queue(t)
  {
    PromoteUsers(c.nodes[y], h, x, u, t);
    PromoteUsers(c.nodes[x], h, y, u, t);
  }

  lemma PromoteUsers(n: Node, h: Handle, p: int, u: Text, t: int)
    ensures PeerUp(n, p).Location(u) == n.Location(u) && PeerUp(n, p).Queue(t) == n.Queue(t)
    ensures h in n.sessions ==> Promote(n, h, p).Location(u) == n.Location(u) &&
                                Promote(n, h, p).Queue(t) == n.Queue(t)
  {
  }

  lemma TablesEntry(c: Cluster, l: Label, o: int, t: int, u: Text)
    requires Sound(c) && Honest(c) && AllNamedAtHost(c, u) && Owned(c, u, o) && Enabled(c, l)
    requires forall s | LogsIn(c, l, u, s) :: s == o
    requires t in c.nodes && o != t && t in c.nodes[o].up && !IsLinkDown(l, o, t)
    ensures EntryMoves(c, Tables(c, l), o, t, u)
  {
    var n := c.nodes[l.s];
    match l
    case Accept(x, h) =>
    case Ask(x, h, q) =>
      AskUsers(n, h, q, u);
      TablesAfterSane(n, h, q);
      assert q == Login(u) && ValidName(u) && u !in n.users ==> LogsIn(c, l, u, x);
      if x == o { EmitEntry(c, o, TablesAfter(n, h, q), EmissionOf(n, h, q), t, u); }
    case HangUp(x, h) =>
      HangupUsers(n, h, u);
      assert EntryFits(n, u, o);
      if x == o { EmitEntry(c, o, TablesAfterHangup(n, h), EmissionOfHangup(n, h), t, u); }
    case Deliver(x, y) => DeliverEntry(c, x, y, o, t, u);
    case Tick(x, y) => if x == o { EmitEntry(c, o, n, To({y} * n.up, Heartbeat), t, u); }
    case LinkDown(x, y) => LinkDownEntry(c, x, y, o, t, u);
    case LinkUp(x, y, h) => LinkUpEntry(c, x, y, h, o, t, u);
  }

  /** The session indexes stay in agreement as long as every user is owned. */
  lemma TablesIndexes(c: Cluster, l: Label)
    requires Sound(c) && Honest(c) && IndexesAgree(c) && Enabled(c, l)
    requires l.Ask? ==> LogsInOnce(c.nodes[l.s], l.h, l.q)
    requires forall u :: HasOwner(c, u)
    ensures IndexesAgree(Tables(c, l))
  {
    var n := c.nodes[l.s];
    match l
    case Accept(s, h) =>
      AcceptIndex(n, h);
      IndexUpdate(c, s, AcceptSession(n, h));
    case Ask(s, h, q) =>
      AskIndex(n, h, q);
      EmitIndex(TablesAfter(n, h, q), EmissionOf(n, h, q));
      IndexUpdate(c, s, Emit(TablesAfter(n, h, q), EmissionOf(n, h, q)));
    case HangUp(s, h) =>
      HangupIndex(n, h);
      EmitIndex(TablesAfterHangup(n, h), EmissionOfHangup(n, h));
      IndexUpdate(c, s, Emit(TablesAfterHangup(n, h), EmissionOfHangup(n, h)));
    case Deliver(s, t) => DeliverIndexes(c, s, t);
    case Tick(s, t) =>
      EmitIndex(n, To({t} * n.up, Heartbeat));
      IndexUpdate(c, s, Emit(n, To({t} * n.up, Heartbeat)));
    case LinkDown(s, t) =>
      PeerDownIndex(n, t);
      PeerDownIndex(c.nodes[t], s);
      IndexUpdate(c, s, PeerDownTables(n, t));
      IndexUpdate(Cluster(c.nodes[s := PeerDownTables(n, t)]), t, PeerDownTables(c.nodes[t], s));
    case LinkUp(s, t, h) =>
      LinkUpIndex(n, h, t);
      LinkUpIndex(c.nodes[t], h, s);
      IndexUpdate(c, s, PeerUp(n, t));
      IndexUpdate(Cluster(c.nodes[s := PeerUp(n, t)]), t, Promote(c.nodes[t], h, s));
  }

  lemma IndexUpdate(c: Cluster, s: int, k: Node)
    requires IndexesAgree(c) && IndexAgrees(k) && s in c.nodes
    ensures IndexesAgree(Cluster(c.nodes[s := k]))
  {
  }

  lemma DeliverIndexes(c: Cluster, s: int, t: int)
    requires Sound(c) && Honest(c) && IndexesAgree(c) && Enabled(c, Deliver(s, t))
    requires forall u :: HasOwner(c, u)
    ensures IndexesAgree(Tables(c, Deliver(s, t)))
  {
    var m := c.nodes[s].Queue(t)[0];
    if m.ReplicateUser? {
      NewsFits(c, s, t, m.user);
    }
    ReceiveIndex(c.nodes[t], s, m);
    ElsewhereIndex(c.nodes[s], Pop(c.nodes[s], t));
    IndexUpdate(c, s, Pop(c.nodes[s], t));
    IndexUpdate(Cluster(c.nodes[s := Pop(c.nodes[s], t)]), t, TablesAfterReceive(c.nodes[t], s, m));
  }

  /** News about a user comes from the server it names, and is never news to a server
      that hosts the user itself. */
  lemma NewsFits(c: Cluster, s: int, t: int, u: Text)
    requires Sound(c) && Honest(c) && Enabled(c, Deliver(s, t)) && HasOwner(c, u)
    requires NewsOf(c.nodes[s].Queue(t)[0], u)
    ensures c.nodes[s].Queue(t)[0].server == s && c.nodes[t].Location(u) != Some(t)
  {
    var m := c.nodes[s].Queue(t)[0];
    assert m in c.nodes[s].Queue(t);
    var o :| Owned(c, u, o);
    assert HonestNode(c.nodes[s]);
    assert s == o || NoNews(c.nodes[s].Queue(t), u);
    assert EntryFits(c.nodes[t], u, o);
  }

  // Steps with their messages to clients.

  lemma SameOwned(a: Cluster, b: Cluster, u: Text, o: int)
    requires SameTables(a, b) && Owned(b, u, o)
    ensures Owned(a, u, o)
  {
    forall x <- a.nodes, t <- a.nodes | x != o
      ensures NoNews(a.nodes[x].Queue(t), u)
    {
      assert Core(a.nodes[x]) == Core(b.nodes[x]);
      assert NoNews(b.nodes[x].Queue(t), u);
    }
    forall t <- a.nodes
      ensures EntryFits(a.nodes[t], u, o)
    {
      assert Core(a.nodes[t]) == Core(b.nodes[t]);
      assert EntryFits(b.nodes[t], u, o);
    }
  }

  lemma StepOwned(c: Cluster, l: Label, u: Text, o: int)
    requires Sound(c) && Honest(c) && AllNamedAtHost(c, u) && Owned(c, u, o) && Enabled(c, l)
    requires forall s | LogsIn(c, l, u, s) :: s == o
    ensures Owned(Step(c, l), u, o)
  {
    StepTables(c, l);
    TablesOwned(c, l, u, o);
    SameOwned(Step(c, l), Tables(c, l), u, o);
  }

  lemma SameEntry(c: Cluster, a: Cluster, b: Cluster, o: int, t: int, u: Text)
    requires SameTables(a, b) && c.nodes.Keys == b.nodes.Keys && o in c.nodes && t in c.nodes
    requires EntryMoves(c, b, o, t, u)
    ensures EntryMoves(c, a, o, t, u)
  {
    assert Core(a.nodes[o]) == Core(b.nodes[o]) && Core(a.nodes[t]) == Core(b.nodes[t]);
  }

  lemma StepEntryMoves(c: Cluster, l: Label, o: int, t: int, u: Text)
    requires Sound(c) && Honest(c) && AllNamedAtHost(c, u) && Owned(c, u, o) && Enabled(c, l)
    requires forall s | LogsIn(c, l, u, s) :: s == o
    requires t in c.nodes && o != t && t in c.nodes[o].up && !IsLinkDown(l, o, t)
    ensures EntryMoves(c, Step(c, l), o, t, u)
  {
    StepTables(c, l);
    TablesEntry(c, l, o, t, u);
    SameEntry(c, Step(c, l), Tables(c, l), o, t, u);
  }

  lemma StepIndexes(c: Cluster, l: Label)
    requires Sound(c) && Honest(c) && IndexesAgree(c) && Enabled(c, l)
    requires l.Ask? ==> LogsInOnce(c.nodes[l.s], l.h, l.q)
    requires forall u :: HasOwner(c, u)
    ensures IndexesAgree(Step(c, l))
  {
    StepTables(c, l);
    TablesIndexes(c, l);
    SameIndexes(Step(c, l), Tables(c, l));
  }

  lemma SameIndexes(a: Cluster, b: Cluster)
    requires SameTables(a, b) && IndexesAgree(b)
    ensures IndexesAgree(a)
  {
    forall s <- a.nodes
      ensures IndexAgrees(a.nodes[s])
    {
      SameIndex(a.nodes[s], b.nodes[s]);
    }
  }

  // Runs in which links stay up.

  /** No server but `s` has news of `u` under way. */
  predicate NoForeignNews(c: Cluster, u: Text, s: int) {
    forall x <- c.nodes, t <- c.nodes | x != s :: NoNews(c.nodes[x].Queue(t), u)
  }

  /** Links stay up, a session logs in once, and a user logs in only where no news of
      the user is under way from another server. */
  predicate Orderly(c: Cluster, l: Label) {
    && !l.LinkDown?
    && (l.Ask? && l.s in c.nodes ==> LogsInOnce(c.nodes[l.s], l.h, l.q))
    && (l.Ask? && l.q.Login? && LogsIn(c, l, l.q.name, l.s) ==> NoForeignNews(c, l.q.name, l.s))
  }

  ghost predicate DirectoryOk(c: Cluster) {
    Sound(c) && Honest(c) && FullMesh(c) && IndexesAgree(c) && forall u :: Settled(c, u)
  }

  /** Once a user is offline everywhere, whoever has a clear field can become owner. */
  lemma ChangeOwner(c: Cluster, u: Text, o: int, s: int)
    requires Owned(c, u, o) && Exact(c, u, o) && s in c.nodes
    requires c.nodes[s].Location(u) == None && NoForeignNews(c, u, s)
    ensures Owned(c, u, s) && Exact(c, u, s)
  {
    if s != o {
      forall t | t in c.nodes
        ensures c.nodes[t].Location(u) == c.nodes[o].Location(u)
      {
        assert NoNews(c.nodes[o].Queue(t), u);
        UserFoldNoNews(c.nodes[o].Queue(t), u, c.nodes[t].Location(u));
        assert t == o || UserView(c, o, t, u) == c.nodes[o].Location(u);
      }
      forall t | t in c.nodes
        ensures EntryFits(c.nodes[t], u, s)
        ensures t != s ==> UserView(c, s, t, u) == c.nodes[s].Location(u)
      {
        assert NoNews(c.nodes[s].Queue(t), u);
        UserFoldNoNews(c.nodes[s].Queue(t), u, c.nodes[t].Location(u));
      }
    }
  }

  lemma StepSettled(c: Cluster, l: Label, u: Text)
    requires DirectoryOk(c) && Enabled(c, l) && Orderly(c, l)
    ensures Settled(Step(c, l), u)
  {
    assert Settled(c, u);
    var o :| Owned(c, u, o) && Exact(c, u, o);
    if LogsIn(c, l, u, l.s) {
      ChangeOwner(c, u, o, l.s);
      o := l.s;
    }
    AllIndexedAtHost(c, u);
    StepOwned(c, l, u, o);
    StepExact(c, l, u, o);
  }

  lemma StepExact(c: Cluster, l: Label, u: Text, o: int)
    requires Sound(c) && Honest(c) && IndexesAgree(c) && FullMesh(c) && Enabled(c, l) && !l.LinkDown?
    requires Owned(c, u, o) && Exact(c, u, o) && forall s | LogsIn(c, l, u, s) :: s == o
    ensures Exact(Step(c, l), u, o)
  {
    AllIndexedAtHost(c, u);
    forall t | t in c.nodes && t != o
      ensures EntryMoves(c, Step(c, l), o, t, u)
    {
      StepEntryMoves(c, l, o, t, u);
    }
    MovesExact(c, Step(c, l), u, o);
  }

  lemma MovesExact(c: Cluster, d: Cluster, u: Text, o: int)
    requires c.nodes.Keys == d.nodes.Keys && o in c.nodes && Exact(c, u, o)
    requires forall t <- c.nodes | t != o :: EntryMoves(c, d, o, t, u)
    ensures Exact(d, u, o)
  {
    forall t <- d.nodes | t != o
      ensures UserView(d, o, t, u) == d.nodes[o].Location(u)
    {
      assert EntryMoves(c, d, o, t, u);
      assert UserView(c, o, t, u) == c.nodes[o].Location(u);
    }
  }

  lemma StepDirectory(c: Cluster, l: Label)
    requires DirectoryOk(c) && Enabled(c, l) && Orderly(c, l)
    ensures DirectoryOk(Step(c, l))
  {
    StepSound(c, l);
    StepHonest(c, l);
    forall u
      ensures HasOwner(c, u)
    {
      assert Settled(c, u);
    }
    StepIndexes(c, l);
    forall u
      ensures Settled(Step(c, l), u)
    {
      StepSettled(c, l, u);
    }
    StepFullMesh(c, l);
  }

  lemma StepFullMesh(c: Cluster, l: Label)
    requires Sound(c) && Honest(c) && FullMesh(c) && Enabled(c, l) && !l.LinkDown?
    ensures FullMesh(Step(c, l))
  {
    StepSound(c, l);
    forall s, t | s in c.nodes && t in c.nodes && s != t
      ensures t in Step(c, l).nodes[s].up
    {
      StepPair(c, l, s, t);
    }
    SoundLinks(Step(c, l));
    MeshFromPairs(Step(c, l));
  }

  lemma StepPair(c: Cluster, l: Label, s: int, t: int)
    requires Sound(c) && Honest(c) && FullMesh(c) && Enabled(c, l) && !l.LinkDown?
    requires s in c.nodes && t in c.nodes && s != t
    ensures t in Step(c, l).nodes[s].up
  {
    StepMoves(c, l, s, t, []);
  }

  lemma MeshFromPairs(d: Cluster)
    requires forall s <- d.nodes :: d.nodes[s].up <= d.nodes.Keys - {s}
    requires forall s <- d.nodes, t <- d.nodes | s != t :: t in d.nodes[s].up
    ensures FullMesh(d)
  {
    forall s <- d.nodes
      ensures d.nodes[s].up == d.nodes.Keys - {s}
    {
      assert forall t <- d.nodes.Keys - {s} :: t in d.nodes[s].up;
    }
  }

  lemma InitialDirectory(c: Cluster)
    requires Initial(c) && c.nodes != map[]
    ensures Honest(c) && IndexesAgree(c) && forall u, o | o in c.nodes :: Owned(c, u, o) && Exact(c, u, o)
    ensures forall u :: Settled(c, u)
  {
    forall s, t | s in c.nodes && t in c.nodes
      ensures c.nodes[s].Queue(t) == []
    {
      assert t in c.nodes[s].out ==> c.nodes[s].out[t] == [];
    }
    forall u, o | o in c.nodes
      ensures Owned(c, u, o) && Exact(c, u, o)
    {
      assert forall t <- c.nodes :: c.nodes[t].Location(u) == None;
    }
    InitialIndexes(c);
    forall u
      ensures Settled(c, u)
    {
      var o :| o in c.nodes;
      assert Owned(c, u, o) && Exact(c, u, o);
    }
  }

  lemma InitialIndexes(c: Cluster)
    requires Initial(c)
    ensures IndexesAgree(c)
  {
    forall s <- c.nodes
      ensures IndexAgrees(c.nodes[s])
    {
      assert forall u :: NameAgrees(c.nodes[s], u);
      assert forall h :: SessionAgrees(c.nodes[s], h);
    }
  }

  /** In every state that an orderly run reaches, each user has one owner, every
      directory agrees with it once the packets under way have arrived, and the session
      indexes agree with the directory. */
  lemma {:induction false} DirectoriesConverge(c: Cluster, ls: seq<Label>)
    requires DirectoryOk(c) && Run(Orderly, c, ls)
    ensures DirectoryOk(End(Orderly, c, ls))
    decreases |ls|
  {
    if ls != [] {
      StepDirectory(c, ls[0]);
      DirectoriesConverge(Step(c, ls[0]), ls[1..]);
    }
  }

  /** `o` alone may host `u` and alone has news of `u` under way; on every other server
      that news turns the entry into the host, or into none when there is none. */
  ghost predicate HostedBy(c: Cluster, u: Text, o: int) {
    && o in c.nodes
    && (forall x <- c.nodes | x != o :: c.nodes[x].Location(u) != Some(x))
    && (forall x <- c.nodes, t <- c.nodes | x != o :: NoNews(c.nodes[x].Queue(t), u))
    && (forall t <- c.nodes | t != o :: UserView(c, o, t, u) == c.nodes[o].Location(u))
    && c.nodes[o].Location(u) in {None, Some(o)}
  }

  lemma OneHost(c: Cluster, ls: seq<Label>, u: Text)
    requires Initial(c) && FullMesh(c) && c.nodes != map[] && Run(Orderly, c, ls)
    ensures exists o :: HostedBy(End(Orderly, c, ls), u, o)
  {
    InitialDirectory(c);
    DirectoriesConverge(c, ls);
    SettledHasHost(End(Orderly, c, ls), u);
  }

  lemma SettledHasHost(d: Cluster, u: Text)
    requires Settled(d, u)
    ensures exists o :: HostedBy(d, u, o)
  {
    var o :| Owned(d, u, o) && Exact(d, u, o);
    assert forall x <- d.nodes :: EntryFits(d.nodes[x], u, o);
    assert HostedBy(d, u, o);
  }

  // The discipline is exactly what is needed.

  /** In a settled cluster a login keeps its user settled if and only if no other server
      has news of that user under way. */
  lemma LoginSettles(c: Cluster, l: Label)
    requires DirectoryOk(c) && Enabled(c, l) && l.Ask? && l.q.Login? && LogsIn(c, l, l.q.name, l.s)
    requires LogsInOnce(c.nodes[l.s], l.h, l.q)
    ensures Settled(Step(c, l), l.q.name) <==> NoForeignNews(c, l.q.name, l.s)
  {
    if NoForeignNews(c, l.q.name, l.s) {
      StepSettled(c, l, l.q.name);
    }
    if Settled(Step(c, l), l.q.name) {
      forall x, t | x in c.nodes && t in c.nodes && x != l.s
        ensures NoNews(c.nodes[x].Queue(t), l.q.name)
      {
        LoginQueues(c, l, x);
        SenderOwns(Step(c, l), l.q.name, l.s, x, ReplicateUser(l.q.name, l.s, true));
      }
    }
  }

  lemma SenderOwns(d: Cluster, u: Text, s: int, x: int, m: Message)
    requires Settled(d, u) && s in d.nodes && x in d.nodes && m in d.nodes[s].Queue(x) && NewsOf(m, u)
    ensures NoForeignNews(d, u, s)
  {
    var o :| Owned(d, u, o) && Exact(d, u, o);
    assert s == o || NoNews(d.nodes[s].Queue(x), u);
  }

  /** After the login the news is under way to every connected peer, and the other
      queues are as they were. */
  lemma LoginQueues(c: Cluster, l: Label, x: int)
    requires Sound(c) && FullMesh(c) && Enabled(c, l) && l.Ask? && l.q.Login? && LogsIn(c, l, l.q.name, l.s)
    requires x in c.nodes && x != l.s
    ensures Step(c, l).nodes[l.s].Queue(x) == c.nodes[l.s].Queue(x) + [ReplicateUser(l.q.name, l.s, true)]
    ensures Step(c, l).nodes[x] == c.nodes[x]
    ensures Step(c, l).nodes[l.s].Location(l.q.name) == Some(l.s)
  {
    var n := c.nodes[l.s];
    RequestCore(n, l.h, l.q);
    TablesAfterSane(n, l.h, l.q);
    var e := Emit(TablesAfter(n, l.h, l.q), EmissionOf(n, l.h, l.q));
    assert Core(HandleRequest(n, l.h, l.q, {})) == Core(e);
    assert x in n.out;
  }

  lemma DeliverNews(c: Cluster, s: int, t: int, u: Text)
    requires Sound(c) && Enabled(c, Deliver(s, t)) && NewsOf(c.nodes[s].Queue(t)[0], u)
    ensures var d := Step(c, Deliver(s, t));
            d.nodes[t].Location(u) == UserStep(c.nodes[s].Queue(t)[0], u, None) &&
            d.nodes[s].Location(u) == c.nodes[s].Location(u) &&
            d.nodes[s].Queue(t) == c.nodes[s].Queue(t)[1..] &&
            d.nodes[t].Queue(s) == c.nodes[t].Queue(s)
  {
    DeliverTables(c, s, t);
    var d, e := Step(c, Deliver(s, t)), Tables(c, Deliver(s, t));
    assert Core(d.nodes[s]) == Core(e.nodes[s]) && Core(d.nodes[t]) == Core(e.nodes[t]);
  }

  /** Without the discipline: the same user logs in on two servers before the news
      arrives. Once it has arrived each of the two places the user on the other. */
  lemma ConcurrentLoginsDiverge(c: Cluster, s: int, t: int, h: Handle, g: Handle, u: Text)
    requires Sound(c) && Honest(c) && FullMesh(c) && s in c.nodes && t in c.nodes && s != t && ValidName(u)
    requires Enabled(c, Ask(s, h, Login(u))) && u !in c.nodes[s].users && c.nodes[s].Queue(t) == []
    requires Enabled(c, Ask(t, g, Login(u))) && u !in c.nodes[t].users && c.nodes[t].Queue(s) == []
    ensures var ls := [Ask(s, h, Login(u)), Ask(t, g, Login(u)), Deliver(s, t), Deliver(t, s)];
            Run(LinksStay, c, ls) &&
            var d := End(LinksStay, c, ls);
            d.nodes.Keys == c.nodes.Keys &&
            d.nodes[s].Location(u) == Some(t) && d.nodes[t].Location(u) == Some(s) &&
            d.nodes[s].Queue(t) == [] && d.nodes[t].Queue(s) == [] && !Settled(d, u)
  {
    var l1, l2, l3, l4 := Ask(s, h, Login(u)), Ask(t, g, Login(u)), Deliver(s, t), Deliver(t, s);
    BothLogIn(c, s, t, h, g, u);
    var d1 := Step(c, l1);
    var d2 := Step(d1, l2);
    DivergentDeliveries(d2, s, t, u);
    FourSteps(c, d1, d2, Step(d2, l3), Step(Step(d2, l3), l4), l1, l2, l3, l4);
  }

  lemma FourSteps(c: Cluster, d1: Cluster, d2: Cluster, d3: Cluster, d4: Cluster,
                  l1: Label, l2: Label, l3: Label, l4: Label)
    requires Enabled(c, l1) && LinksStay(c, l1) && Step(c, l1) == d1
    requires Enabled(d1, l2) && LinksStay(d1, l2) && Step(d1, l2) == d2
    requires Enabled(d2, l3) && LinksStay(d2, l3) && Step(d2, l3) == d3
    requires Enabled(d3, l4) && LinksStay(d3, l4) && Step(d3, l4) == d4
    ensures Run(LinksStay, c, [l1, l2, l3, l4]) && End(LinksStay, c, [l1, l2, l3, l4]) == d4
  {
    OneStep(LinksStay, d3, l4, []);
    OneStep(LinksStay, d2, l3, [l4] + []);
    OneStep(LinksStay, d1, l2, [l3] + ([l4] + []));
    OneStep(LinksStay, c, l1, [l2] + ([l3] + ([l4] + [])));
    assert [l1, l2, l3, l4] == [l1] + ([l2] + ([l3] + ([l4] + [])));
  }

  lemma BothLogIn(c: Cluster, s: int, t: int, h: Handle, g: Handle, u: Text)
    requires Sound(c) && Honest(c) && FullMesh(c) && s in c.nodes && t in c.nodes && s != t && ValidName(u)
    requires Enabled(c, Ask(s, h, Login(u))) && u !in c.nodes[s].users && c.nodes[s].Queue(t) == []
    requires Enabled(c, Ask(t, g, Login(u))) && u !in c.nodes[t].users && c.nodes[t].Queue(s) == []
    ensures Enabled(Step(c, Ask(s, h, Login(u))), Ask(t, g, Login(u)))
    ensures var d := Step(Step(c, Ask(s, h, Login(u))), Ask(t, g, Login(u)));
            Sound(d) && d.nodes[s].Queue(t) == [ReplicateUser(u, s, true)] &&
            d.nodes[t].Queue(s) == [ReplicateUser(u, t, true)]
  {
    var l1, l2 := Ask(s, h, Login(u)), Ask(t, g, Login(u));
    LoginQueues(c, l1, t);
    StepSound(c, l1);
    StepFullMesh(c, l1);
    LoginQueues(Step(c, l1), l2, s);
    StepSound(Step(c, l1), l2);
  }

  lemma DivergentDeliveries(c: Cluster, s: int, t: int, u: Text)
    requires Sound(c) && s in c.nodes && t in c.nodes && s != t
    requires c.nodes[s].Queue(t) == [ReplicateUser(u, s, true)] && c.nodes[t].Queue(s) == [ReplicateUser(u, t, true)]
    ensures Enabled(c, Deliver(s, t)) && Enabled(Step(c, Deliver(s, t)), Deliver(t, s))
    ensures var d := Step(Step(c, Deliver(s, t)), Deliver(t, s));
            d.nodes[s].Location(u) == Some(t) && d.nodes[t].Location(u) == Some(s) &&
            d.nodes[s].Queue(t) == [] && d.nodes[t].Queue(s) == [] && !Settled(d, u)
  {
    DeliverNews(c, s, t, u);
    StepSound(c, Deliver(s, t));
    DeliverNews(Step(c, Deliver(s, t)), t, s, u);
    Contradictory(Step(Step(c, Deliver(s, t)), Deliver(t, s)), s, t, u);
  }

  lemma Contradictory(d: Cluster, s: int, t: int, u: Text)
    requires s in d.nodes && t in d.nodes && s != t
    requires d.nodes[s].Location(u) == Some(t) && d.nodes[t].Location(u) == Some(s)
    ensures !Settled(d, u)
  {
    forall o | Owned(d, u, o)
      ensures false
    {
      OwnerIsPlace(d, u, o, s, t);
      OwnerIsPlace(d, u, o, t, s);
    }
  }

  lemma OwnerIsPlace(d: Cluster, u: Text, o: int, s: int, place: int)
    requires Owned(d, u, o) && s in d.nodes && d.nodes[s].Location(u) == Some(place)
    ensures o == place
  {
    assert EntryFits(d.nodes[s], u, o);
  }

  lemma OneStep(rule: (Cluster, Label) -> bool, c: Cluster, l: Label, ls: seq<Label>)
    requires Enabled(c, l) && rule(c, l) && Run(rule, Step(c, l), ls)
    ensures Run(rule, c, [l] + ls) && End(rule, c, [l] + ls) == End(rule, Step(c, l), ls)
  {
    assert ([l] + ls)[1..] == ls;
  }

  // Links that fail, and users with a home.

  /** A session logs in once, and each user only on the server that `home` names. */
  predicate AtHome(home: Text -> int, c: Cluster, l: Label) {
    && (l.Ask? && l.s in c.nodes ==> LogsInOnce(c.nodes[l.s], l.h, l.q))
    && (l.Ask? && l.q.Login? && LogsIn(c, l, l.q.name, l.s) ==> l.s == home(l.q.name))
  }

  /** No server places `u`, or is about to place `u`, on a server that does not host `u`. */
  ghost predicate NoPhantomUser(c: Cluster, u: Text, o: int)
    requires o in c.nodes
  {
    forall t <- c.nodes | t != o :: UserView(c, o, t, u) == None || UserView(c, o, t, u) == c.nodes[o].Location(u)
  }

  /** A server places nobody on an unconnected peer. */
  ghost predicate DownIsForgotten(c: Cluster, u: Text, o: int)
    requires o in c.nodes
  {
    forall t <- c.nodes | t != o && t !in c.nodes[o].up :: Forgotten(c, u, o, t)
  }

  ghost predicate Forgotten(c: Cluster, u: Text, o: int, t: int)
    requires o in c.nodes && t in c.nodes
  {
    c.nodes[o].Queue(t) == [] && c.nodes[t].Location(u) == None
  }

  ghost predicate HomesOk(home: Text -> int, c: Cluster) {
    && Sound(c) && Honest(c) && IndexesAgree(c)
    && forall u :: Owned(c, u, home(u)) && NoPhantomUser(c, u, home(u)) && DownIsForgotten(c, u, home(u))
  }

  lemma TablesForgotten(c: Cluster, l: Label, u: Text, o: int, t: int)
    requires Sound(c) && Honest(c) && AllNamedAtHost(c, u) && Owned(c, u, o) && Enabled(c, l)
    requires forall s | LogsIn(c, l, u, s) :: s == o
    requires t in c.nodes && t != o && t !in c.nodes[o].up && Forgotten(c, u, o, t)
    ensures Forgotten(Tables(c, l), u, o, t)
  {
    QuietLink(c, l, o, t);
    var n := c.nodes[l.s];
    match l
    case Accept(x, h) =>
    case Ask(x, h, q) =>
      AskUsers(n, h, q, u);
      assert q == Login(u) && ValidName(u) && u !in n.users ==> LogsIn(c, l, u, x);
    case HangUp(x, h) => HangupUsers(n, h, u);
    case Deliver(x, y) =>
      assert n.Queue(y)[0] in n.Queue(y);
      assert x == o || NoNews(n.Queue(y), u);
      ReceiveUsers(c.nodes[y], x, n.Queue(y)[0], u);
    case Tick(x, y) =>
    case LinkDown(x, y) =>
      PeerDownUsers(n, y, u);
      PeerDownUsers(c.nodes[y], x, u);
    case LinkUp(x, y, h) => LinkUpKeeps(c, x, y, h, t, t, u);
  }

  lemma LinkDownForgets(c: Cluster, x: int, y: int, u: Text, o: int, t: int)
    requires Sound(c) && Owned(c, u, o) && Enabled(c, LinkDown(x, y)) && IsLinkDown(LinkDown(x, y), o, t)
    requires t in c.nodes
    ensures Forgotten(Tables(c, LinkDown(x, y)), u, o, t)
  {
    assert EntryFits(c.nodes[t], u, o);
    PeerDownUsers(c.nodes[t], o, u);
  }

  lemma SameForgotten(a: Cluster, b: Cluster, u: Text, o: int, t: int)
    requires SameTables(a, b) && o in a.nodes && t in a.nodes && Forgotten(b, u, o, t)
    ensures Forgotten(a, u, o, t)
  {
    assert Core(a.nodes[o]) == Core(b.nodes[o]) && Core(a.nodes[t]) == Core(b.nodes[t]);
  }

  lemma StepForgotten(c: Cluster, l: Label, u: Text, o: int, t: int)
    requires Sound(c) && Honest(c) && AllNamedAtHost(c, u) && Owned(c, u, o) && Enabled(c, l)
    requires forall s | LogsIn(c, l, u, s) :: s == o
    requires t in c.nodes && t != o && t !in c.nodes[o].up && Forgotten(c, u, o, t)
    ensures Forgotten(Step(c, l), u, o, t)
  {
    StepTables(c, l);
    TablesForgotten(c, l, u, o, t);
    SameForgotten(Step(c, l), Tables(c, l), u, o, t);
  }

  lemma LinkDownForgotten(c: Cluster, l: Label, u: Text, o: int, t: int)
    requires Sound(c) && Owned(c, u, o) && Enabled(c, l) && IsLinkDown(l, o, t) && t in c.nodes
    ensures Forgotten(Step(c, l), u, o, t)
  {
    StepTables(c, l);
    LinkDownForgets(c, l.s, l.t, u, o, t);
    SameForgotten(Step(c, l), Tables(c, l), u, o, t);
  }

  lemma StepHomeEntry(c: Cluster, l: Label, u: Text, o: int, t: int)
    requires Sound(c) && Honest(c) && AllNamedAtHost(c, u) && Owned(c, u, o) && Enabled(c, l)
    requires DownIsForgotten(c, u, o) && forall s | LogsIn(c, l, u, s) :: s == o
    requires t in c.nodes && t != o
    ensures Forgotten(Step(c, l), u, o, t) || t in Step(c, l).nodes[o].up
    ensures Forgotten(Step(c, l), u, o, t) || EntryMoves(c, Step(c, l), o, t, u)
  {
    if t in c.nodes[o].up && !IsLinkDown(l, o, t) {
      StepMoves(c, l, o, t, []);
      StepEntryMoves(c, l, o, t, u);
    } else if IsLinkDown(l, o, t) {
      LinkDownForgotten(c, l, u, o, t);
    } else {
      StepForgotten(c, l, u, o, t);
    }
  }

  lemma StepHome(c: Cluster, l: Label, u: Text, o: int)
    requires Sound(c) && Honest(c) && IndexesAgree(c) && Owned(c, u, o) && Enabled(c, l)
    requires NoPhantomUser(c, u, o) && DownIsForgotten(c, u, o) && forall s | LogsIn(c, l, u, s) :: s == o
    ensures NoPhantomUser(Step(c, l), u, o) && DownIsForgotten(Step(c, l), u, o)
  {
    AllIndexedAtHost(c, u);
    forall t | t in c.nodes && t != o
      ensures Forgotten(Step(c, l), u, o, t) || (t in Step(c, l).nodes[o].up && EntryMoves(c, Step(c, l), o, t, u))
    {
      StepHomeEntry(c, l, u, o, t);
    }
    HomeMoves(c, Step(c, l), u, o);
  }

  lemma HomeMoves(c: Cluster, d: Cluster, u: Text, o: int)
    requires c.nodes.Keys == d.nodes.Keys && o in c.nodes && NoPhantomUser(c, u, o)
    requires forall t <- c.nodes | t != o ::
               Forgotten(d, u, o, t) || (t in d.nodes[o].up && EntryMoves(c, d, o, t, u))
    ensures NoPhantomUser(d, u, o) && DownIsForgotten(d, u, o)
  {
    forall t <- d.nodes | t != o
      ensures UserView(d, o, t, u) == None || UserView(d, o, t, u) == d.nodes[o].Location(u)
    {
      assert Forgotten(d, u, o, t) || EntryMoves(c, d, o, t, u);
      assert UserView(c, o, t, u) == None || UserView(c, o, t, u) == c.nodes[o].Location(u);
    }
  }

  /** However often links fail and come back, no directory ever places a user, or is
      about to place one, on a server that does not host the user. */
  lemma {:induction false} NoPhantomUsers(home: Text -> int, c: Cluster, ls: seq<Label>)
    requires HomesOk(home, c) && Run((d, l) => AtHome(home, d, l), c, ls)
    ensures HomesOk(home, End((d, l) => AtHome(home, d, l), c, ls))
    decreases |ls|
  {
    if ls != [] {
      StepHomes(home, c, ls[0]);
      NoPhantomUsers(home, Step(c, ls[0]), ls[1..]);
    }
  }

  lemma InitialHomes(home: Text -> int, c: Cluster)
    requires Initial(c) && forall u :: home(u) in c.nodes
    ensures HomesOk(home, c)
  {
    assert home([]) in c.nodes;
    InitialDirectory(c);
    forall u
      ensures Owned(c, u, home(u)) && NoPhantomUser(c, u, home(u)) && DownIsForgotten(c, u, home(u))
    {
      assert Owned(c, u, home(u)) && Exact(c, u, home(u));
      forall t | t in c.nodes && t != home(u)
        ensures Forgotten(c, u, home(u), t)
      {
        InitialForgotten(c, u, home(u), t);
      }
    }
  }

  lemma InitialForgotten(c: Cluster, u: Text, o: int, t: int)
    requires Initial(c) && o in c.nodes && t in c.nodes
    ensures Forgotten(c, u, o, t)
  {
    assert t in c.nodes[o].out ==> c.nodes[o].out[t] == [];
  }

  /** From the start: whatever a run does to the links, every directory, with what is
      under way folded in, has a user at home or nowhere. */
  lemma PhantomsNeverAppear(home: Text -> int, c: Cluster, ls: seq<Label>, u: Text, t: int)
    requires Initial(c) && (forall v :: home(v) in c.nodes)
    requires Run((d, l) => AtHome(home, d, l), c, ls) && t in c.nodes && t != home(u)
    ensures var d := End((d, l) => AtHome(home, d, l), c, ls);
            home(u) in d.nodes && t in d.nodes &&
            (UserView(d, home(u), t, u) == None || UserView(d, home(u), t, u) == d.nodes[home(u)].Location(u))
  {
    InitialHomes(home, c);
    NoPhantomUsers(home, c, ls);
    EndKeys((d, l) => AtHome(home, d, l), c, ls);
    var d := End((d, l) => AtHome(home, d, l), c, ls);
    assert NoPhantomUser(d, u, home(u));
  }

  lemma StepHomes(home: Text -> int, c: Cluster, l: Label)
    requires HomesOk(home, c) && Enabled(c, l) && AtHome(home, c, l)
    ensures HomesOk(home, Step(c, l))
  {
    StepSound(c, l);
    StepHonest(c, l);
    forall u
      ensures HasOwner(c, u)
    {
      assert Owned(c, u, home(u));
    }
    StepIndexes(c, l);
    forall u
      ensures Owned(Step(c, l), u, home(u)) && NoPhantomUser(Step(c, l), u, home(u)) &&
              DownIsForgotten(Step(c, l), u, home(u))
    {
      AllIndexedAtHost(c, u);
      StepOwned(c, l, u, home(u));
      StepHome(c, l, u, home(u));
    }
  }

  /** A link that comes back is right, at either end, for exactly the users who are at
      home at the other and not logged in. */
  lemma LinkUpUsers(home: Text -> int, c: Cluster, s: int, t: int, h: Handle, u: Text, o: int, x: int)
    requires HomesOk(home, c) && Enabled(c, LinkUp(s, t, h)) && home(u) == o
    requires (o == s && x == t) || (o == t && x == s)
    ensures var d := Step(c, LinkUp(s, t, h));
            UserView(d, o, x, u) == d.nodes[o].Location(u) <==> c.nodes[o].Location(u) == None
  {
    assert DownIsForgotten(c, u, o);
    assert Forgotten(c, u, o, x);
    LinkUpKeeps(c, s, t, h, o, x, u);
    LinkUpKeeps(c, s, t, h, x, x, u);
  }
}
