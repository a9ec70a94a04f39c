/** A private message and the cluster as a whole: the copies that sessions anywhere have
    been sent and the packets on any link never outnumber the requests. */
module PrivateOnce {
  import opened Bytes
  import opened Messages
  import opened Nodes
  import opened NodeFacts
  import opened Cluster
  import opened Sets
  import opened RoomRoutes
  import opened Sessions
  import opened Chats
  import opened Delivery
  import opened ExactlyOnce

  ghost function SeenBy(n: Node, k: Chat): nat {
    Sum(n.sessions.Keys, g => Seen(n, g, k))
  }

  ghost function UnderWay(n: Node, k: Chat): nat {
    Sum(n.out.Keys, p => multiset(n.Queue(p))[Carrier(k)])
  }

  ghost function WholeShare(n: Node, k: Chat): nat {
    SeenBy(n, k) + UnderWay(n, k)
  }

  ghost function WholeSum(c: Cluster, k: Chat): nat {
    Total(c, n => WholeShare(n, k))
  }

  // Copies at one server.

  lemma SeenBySame(n: Node, d: Node, k: Chat)
    requires d.sessions.Keys == n.sessions.Keys && forall g <- n.sessions :: Seen(d, g, k) == Seen(n, g, k)
    ensures SeenBy(d, k) == SeenBy(n, k)
  {
    SumSame(n.sessions.Keys, g => Seen(n, g, k), g => Seen(d, g, k));
  }

  /** Only the session registered under the receiver's name can have read one more. */
  lemma SeenByOneMore(n: Node, d: Node, k: Chat)
    requires k.PrivateChat? && d.sessions.Keys == n.sessions.Keys
    requires forall g <- n.sessions :: Seen(d, g, k) == Seen(n, g, k) + Readers(n, k, g)
    ensures SeenBy(d, k) <= SeenBy(n, k) + 1
  {
    if k.receiver in n.byName && n.byName[k.receiver] in n.sessions {
      SumChange(n.sessions.Keys, g => Seen(n, g, k), g => Seen(d, g, k), n.byName[k.receiver]);
    } else {
      SeenBySame(n, d, k);
    }
  }

  lemma UnderWaySame(n: Node, d: Node, k: Chat)
    requires d.out.Keys == n.out.Keys
    requires forall p <- n.out :: multiset(d.Queue(p))[Carrier(k)] == multiset(n.Queue(p))[Carrier(k)]
    ensures UnderWay(d, k) == UnderWay(n, k)
  {
    SumSame(n.out.Keys, p => multiset(n.Queue(p))[Carrier(k)], p => multiset(d.Queue(p))[Carrier(k)]);
  }

  lemma UnderWayChange(n: Node, d: Node, k: Chat, p: int)
    requires d.out.Keys == n.out.Keys && p in n.out
    requires forall r <- n.out | r != p :: d.Queue(r) == n.Queue(r)
    ensures UnderWay(d, k) + multiset(n.Queue(p))[Carrier(k)] == UnderWay(n, k) + multiset(d.Queue(p))[Carrier(k)]
  {
    SumChange(n.out.Keys, r => multiset(n.Queue(r))[Carrier(k)], r => multiset(d.Queue(r))[Carrier(k)], p);
  }

  /** A private message goes to at most one peer. */
  lemma SpreadUnderWay(n: Node, d: Node, e: Emission, k: Chat)
    requires d.out == Emit(n, e).out
    requires e.To? && e.m == Carrier(k) ==> |e.targets| <= 1
    ensures UnderWay(d, k) <= UnderWay(n, k) + if e.To? && e.m == Carrier(k) then 1 else 0
  {
    assert d.out.Keys == n.out.Keys;
    if e.To? && e.m == Carrier(k) && e.targets != {} {
      var p := Any(e.targets);
      OnlyElement(e.targets, p);
      if p in n.out { UnderWayChange(n, d, k, p); } else { UnderWaySame(n, d, k); }
    } else {
      forall p | p in n.out
        ensures multiset(d.Queue(p))[Carrier(k)] == multiset(n.Queue(p))[Carrier(k)]
      {
        SpreadShare(n, e, p, k);
      }
      UnderWaySame(n, d, k);
    }
  }

  lemma OnlyElement<T>(s: set<T>, x: T)
    requires |s| <= 1 && x in s
    ensures s == {x}
  {
    assert |s - {x}| == 0;
  }

  // One server.

  lemma AskWhole(n: Node, h: Handle, q: Request, k: Chat)
    requires Tidy(n) && h in n.sessions && WellFormed(q) && LogsInOnce(n, h, q) && k.PrivateChat?
    ensures WholeShare(HandleRequest(n, h, q, {}), k) <=
            WholeShare(n, k) + if Origin(n, h, q) == Some(k) then 1 else 0
  {
    var e := EmissionOf(n, h, q);
    AskSeenBy(n, h, q, k);
    AskOut(n, h, q);
    AskCarries(n, h, q, k);
    PrivateTarget(n, h, q, k);
    SpreadUnderWay(n, HandleRequest(n, h, q, {}), e, k);
  }

  lemma AskOut(n: Node, h: Handle, q: Request)
    requires Sane(n) && h in n.sessions && WellFormed(q)
    ensures HandleRequest(n, h, q, {}).out == Emit(n, EmissionOf(n, h, q)).out
  {
    RequestCore(n, h, q);
    TablesAfterSane(n, h, q);
    SameOut(HandleRequest(n, h, q, {}), Emit(TablesAfter(n, h, q), EmissionOf(n, h, q)));
  }

  lemma SameOut(d: Node, e: Node)
    requires Core(d) == Core(e)
    ensures d.out == e.out && d.sessions.Keys == e.sessions.Keys
  {
    SameNames(d, e);
  }

  /** It is sent on to one peer or handed out here, not both. */
  lemma PrivateTarget(n: Node, h: Handle, q: Request, k: Chat)
    requires h in n.sessions && k.PrivateChat?
    ensures var e := EmissionOf(n, h, q);
            e.To? && e.m == Carrier(k) ==> |e.targets| <= 1 && n.Location(k.receiver) != Some(n.id)
  {
    var e := EmissionOf(n, h, q);
    if e.To? && e.m == Carrier(k) {
      assert e.targets <= {n.users[k.receiver]};
      if e.targets != {} { assert e.targets == {n.users[k.receiver]}; }
    }
  }

  lemma AskSeenBy(n: Node, h: Handle, q: Request, k: Chat)
    requires Tidy(n) && h in n.sessions && WellFormed(q) && LogsInOnce(n, h, q) && k.PrivateChat?
    ensures var here := Origin(n, h, q) == Some(k) && n.Location(k.receiver) == Some(n.id);
            SeenBy(HandleRequest(n, h, q, {}), k) <= SeenBy(n, k) + if here then 1 else 0
  {
    var d := HandleRequest(n, h, q, {});
    AskNames(n, h, q, h);
    forall g | g in n.sessions
      ensures Seen(d, g, k) == Seen(n, g, k) + if Origin(n, h, q) == Some(k) then LocalReaders(n, k, g) else 0
    {
      AskSeen(n, h, q, g, k);
    }
    if Origin(n, h, q) == Some(k) && n.Location(k.receiver) == Some(n.id) {
      SeenByOneMore(n, d, k);
    } else {
      SeenBySame(n, d, k);
    }
  }

  lemma ReceiveWhole(n: Node, p: int, m: Message, k: Chat)
    requires Tidy(n) && p in n.out && k.PrivateChat?
    ensures WholeShare(Receive(n, p, m), k) <= WholeShare(n, k) + if m == Carrier(k) then 1 else 0
  {
    var d := Receive(n, p, m);
    ReceiveCore(n, p, m);
    SameOut(d, TablesAfterReceive(n, p, m));
    forall g | g in n.sessions
      ensures Seen(d, g, k) == Seen(n, g, k) + if m == Carrier(k) then Readers(n, k, g) else 0
    {
      ReceiveSeen(n, p, m, g, k);
    }
    if m == Carrier(k) { SeenByOneMore(n, d, k); } else { SeenBySame(n, d, k); }
    forall r | r in n.out
      ensures multiset(d.Queue(r))[Carrier(k)] == multiset(n.Queue(r))[Carrier(k)]
    {
      ReceiveQueueShare(n, p, m, r, k);
    }
    UnderWaySame(n, d, k);
  }

  lemma PopWhole(n: Node, y: int, k: Chat)
    requires y in n.out && n.Queue(y) != []
    ensures WholeShare(n, k) == WholeShare(Pop(n, y), k) + if n.Queue(y)[0] == Carrier(k) then 1 else 0
  {
    assert n.Queue(y) == [n.Queue(y)[0]] + n.Queue(y)[1..];
    UnderWayChange(n, Pop(n, y), k, y);
    SeenBySame(n, Pop(n, y), k);
  }

  lemma HangupWhole(n: Node, h: Handle, k: Chat)
    requires Sane(n) && h in n.live
    ensures WholeShare(Hangup(n, h, {}), k) == WholeShare(n, k)
  {
    HangupKeys(n, h);
    forall g | g in n.sessions
      ensures Seen(Hangup(n, h, {}), g, k) == Seen(n, g, k)
    {
      HangupSeen(n, h, g, k);
    }
    SeenBySame(n, Hangup(n, h, {}), k);
    forall r | r in n.out
      ensures multiset(Hangup(n, h, {}).Queue(r))[Carrier(k)] == multiset(n.Queue(r))[Carrier(k)]
    {
      HangupQueue(n, h, r, k);
    }
    UnderWaySame(n, Hangup(n, h, {}), k);
  }

  lemma HangupKeys(n: Node, h: Handle)
    requires Sane(n) && h in n.live
    ensures Hangup(n, h, {}).out.Keys == n.out.Keys && Hangup(n, h, {}).sessions.Keys == n.sessions.Keys
  {
    HangupCore(n, h);
    SameOut(Hangup(n, h, {}), Emit(TablesAfterHangup(n, h), EmissionOfHangup(n, h)));
  }

  lemma PeerDownWhole(n: Node, p: int, k: Chat)
    requires Sane(n) && p in n.up
    ensures WholeShare(PeerDown(n, p), k) <= WholeShare(n, k)
  {
    var d := PeerDown(n, p);
    PeerDownCore(n, p);
    SameNames(d, PeerDownTables(n, p));
    forall g | g in n.sessions
      ensures Seen(d, g, k) == Seen(n, g, k)
    {
      PeerDownReceived(n, p, g, CopyOf(k));
      SeenAlike(n, d, g, k);
    }
    SeenBySame(n, d, k);
    UnderWayChange(n, d, k, p);
  }

  lemma AcceptWhole(n: Node, h: Handle, k: Chat)
    requires h !in n.sessions
    ensures WholeShare(AcceptSession(n, h), k) == WholeShare(n, k)
  {
    var d := AcceptSession(n, h);
    SumRemove(d.sessions.Keys, g => Seen(d, g, k), h);
    assert d.sessions.Keys - {h} == n.sessions.Keys;
    SumSame(n.sessions.Keys, g => Seen(n, g, k), g => Seen(d, g, k));
    UnderWaySame(n, d, k);
  }

  lemma SameLogsWhole(n: Node, d: Node, k: Chat)
    requires d.sessions == n.sessions && d.out.Keys == n.out.Keys
    requires forall p <- n.out :: multiset(d.Queue(p))[Carrier(k)] == multiset(n.Queue(p))[Carrier(k)]
    ensures WholeShare(d, k) == WholeShare(n, k)
  {
    SeenBySame(n, d, k);
    UnderWaySame(n, d, k);
  }

  lemma PingWhole(n: Node, p: int, k: Chat)
    requires Sane(n) && p in n.out
    ensures WholeShare(Ping(n, p), k) == WholeShare(n, k)
  {
    SendOneSpreads(n, p, Heartbeat);
    var d := Spread(n, {p} * n.up, Heartbeat);
    assert Ping(n, p) == d;
    forall r | r in n.out
      ensures multiset(d.Queue(r))[Carrier(k)] == multiset(n.Queue(r))[Carrier(k)]
    {
      SpreadShare(n, To({p} * n.up, Heartbeat), r, k);
    }
    SameLogsWhole(n, d, k);
  }

  lemma LinkUpWhole(n: Node, h: Handle, p: int, k: Chat)
    ensures WholeShare(PeerUp(n, p), k) == WholeShare(n, k)
    ensures h in n.sessions ==> WholeShare(Promote(n, h, p), k) == WholeShare(n, k)
  {
    SameLogsWhole(n, PeerUp(n, p), k);
    if h in n.sessions { SameLogsWhole(n, Promote(n, h, p), k); }
  }

  // The cluster.

  lemma StepWhole(c: Cluster, l: Label, k: Chat)
    requires Sound(c) && AllTidy(c) && Enabled(c, l) && OneLogin(c, l) && k.PrivateChat?
    ensures WholeSum(Step(c, l), k) <= WholeSum(c, k) + if AsksFor(c, l, k) then 1 else 0
  {
    var n := c.nodes[l.s];
    match l
    case Accept(s, h) =>
      AcceptWhole(n, h, k);
      TotalUpdate(c, n => WholeShare(n, k), s, AcceptSession(n, h));
    case Ask(s, h, q) =>
      AskWhole(n, h, q, k);
      TotalUpdate(c, n => WholeShare(n, k), s, HandleRequest(n, h, q, {}));
    case HangUp(s, h) =>
      HangupWhole(n, h, k);
      TotalUpdate(c, n => WholeShare(n, k), s, Hangup(n, h, {}));
    case Deliver(s, y) =>
      PopWhole(n, y, k);
      ReceiveWhole(c.nodes[y], s, n.Queue(y)[0], k);
      TotalUpdateTwo(c, n => WholeShare(n, k), s, Pop(n, y), y, Receive(c.nodes[y], s, n.Queue(y)[0]));
    case Tick(s, y) =>
      PingWhole(n, y, k);
      TotalUpdate(c, n => WholeShare(n, k), s, Ping(n, y));
    case LinkDown(x, y) =>
      PeerDownWhole(n, y, k);
      PeerDownWhole(c.nodes[y], x, k);
      TotalUpdateTwo(c, n => WholeShare(n, k), x, PeerDown(n, y), y, PeerDown(c.nodes[y], x));
    case LinkUp(x, y, h) =>
      LinkUpWhole(n, h, y, k);
      LinkUpWhole(c.nodes[y], h, x, k);
      TotalUpdateTwo(c, n => WholeShare(n, k), x, PeerUp(n, y), y, Promote(c.nodes[y], h, x));
  }

  lemma {:induction false} WholeBounded(c: Cluster, ls: seq<Label>, k: Chat)
    requires Sound(c) && AllTidy(c) && Run(OneLogin, c, ls) && k.PrivateChat?
    ensures WholeSum(End(OneLogin, c, ls), k) <= WholeSum(c, k) + Requests(OneLogin, c, ls, k)
    decreases |ls|
  {
    if ls != [] {
      StepSound(c, ls[0]);
      StepTidy(c, ls[0]);
      StepWhole(c, ls[0], k);
      WholeBounded(Step(c, ls[0]), ls[1..], k);
    }
  }

  lemma InitialWhole(c: Cluster, k: Chat)
    requires Initial(c)
    ensures WholeSum(c, k) == 0
  {
    var w := n => WholeShare(n, k);
    forall s | s in c.nodes.Keys
      ensures Share(c, w, s) == 0
    {
      SumOfZeros(c.nodes[s].out.Keys, p => multiset(c.nodes[s].Queue(p))[Carrier(k)]);
    }
    SumOfZeros(c.nodes.Keys, s => Share(c, w, s));
  }

  /** In the whole cluster a private message asked for once exists at most once, be it
      under way or read; two sessions never both get it. */
  lemma PrivateAtMostOnce(c: Cluster, ls: seq<Label>, k: Chat, s: int, g: Handle, t: int, h: Handle)
    requires Initial(c) && Run(OneLogin, c, ls) && k.PrivateChat? && Requests(OneLogin, c, ls, k) <= 1
    requires s in c.nodes && t in c.nodes && (s != t || g != h)
    ensures var d := End(OneLogin, c, ls);
            s in d.nodes && t in d.nodes && WholeSum(d, k) <= 1 && Seen(d.nodes[s], g, k) + Seen(d.nodes[t], h, k) <= 1
  {
    InitialTidy(c);
    InitialWhole(c, k);
    WholeBounded(c, ls, k);
    EndKeys(OneLogin, c, ls);
    TwoReaders(End(OneLogin, c, ls), k, s, g, t, h);
  }

  lemma SeenWithin(n: Node, g: Handle, h: Handle, k: Chat)
    requires k.PrivateChat? && g != h
    ensures Seen(n, g, k) + Seen(n, h, k) <= WholeShare(n, k)
  {
    var keys, f := n.sessions.Keys, (x: Handle) => Seen(n, x, k);
    if g in keys { SumRemove(keys, f, g); }
    if h in keys {
      SumRemove(keys, f, h);
      if g in keys { SumRemove(keys - {g}, f, h); }
    }
  }

  lemma TwoReaders(d: Cluster, k: Chat, s: int, g: Handle, t: int, h: Handle)
    requires k.PrivateChat? && s in d.nodes && t in d.nodes && (s != t || g != h)
    ensures Seen(d.nodes[s], g, k) + Seen(d.nodes[t], h, k) <= WholeSum(d, k)
  {
    var w := n => WholeShare(n, k);
    var f := (x: int) => Share(d, w, x);
    SumRemove(d.nodes.Keys, f, s);
    if s == t {
      SeenWithin(d.nodes[s], g, h, k);
    } else {
      SumRemove(d.nodes.Keys - {s}, f, t);
      SeenWithin(d.nodes[s], g, g + 1, k);
      SeenWithin(d.nodes[t], h, h + 1, k);
    }
  }
}
