/** What becomes of a send loop when sockets fail: as if nobody had failed and the
    failing links had gone down afterwards. */
module SendFailure {
  import opened Messages
  import opened Nodes
  import opened NodeFacts

  /** The links to all of `gone` are down, and what they told is forgotten. */
  function CutAll(n: Node, gone: set<int>): Node {
    n.(up := n.up - gone,
       out := map p | p in n.out :: if p in gone then [] else n.out[p],
       users := map u | u in n.users && n.users[u] !in gone :: n.users[u],
       rooms := map r | r in n.rooms :: n.rooms[r].(remote := n.rooms[r].remote - gone))
  }

  lemma CutIsCutAll(n: Node, p: int)
    requires p in n.out
    ensures Cut(n, p) == CutAll(n, {p})
  {
    assert Cut(n, p).out == CutAll(n, {p}).out;
    assert Cut(n, p).users == CutAll(n, {p}).users;
    assert Cut(n, p).rooms == CutAll(n, {p}).rooms;
  }

  lemma CutNone(n: Node)
    ensures CutAll(n, {}) == n
  {
    var c := CutAll(n, {});
    assert c.out == n.out && c.users == n.users;
    forall r | r in n.rooms ensures c.rooms[r] == n.rooms[r] {
      assert n.rooms[r].remote - {} == n.rooms[r].remote;
    }
    assert c.rooms == n.rooms;
  }

  /** Links that are cut before the others are sent to might as well be cut after. */
  lemma CutThenSend(n: Node, p: int, sent: set<int>, gone: set<int>, m: Message)
    requires p !in sent
    ensures CutAll(Spread(CutAll(n, {p}), sent, m), gone) == CutAll(Spread(n, sent, m), {p} + gone)
  {
    var a, b := CutAll(Spread(CutAll(n, {p}), sent, m), gone), CutAll(Spread(n, sent, m), {p} + gone);
    CutOut(n, p, sent, gone, m);
    assert a.users == b.users;
    forall r | r in n.rooms ensures a.rooms[r] == b.rooms[r] {
      assert n.rooms[r].remote - {p} - gone == n.rooms[r].remote - ({p} + gone);
    }
    assert a.rooms == b.rooms;
    assert a.up == b.up;
  }

  lemma CutOut(n: Node, p: int, sent: set<int>, gone: set<int>, m: Message)
    requires p !in sent
    ensures CutAll(Spread(CutAll(n, {p}), sent, m), gone).out == CutAll(Spread(n, sent, m), {p} + gone).out
  {
  }

  lemma CoreCutAll(n: Node, k: Node, gone: set<int>)
    requires Core(n) == Core(k)
    ensures Core(CutAll(n, gone)) == Core(CutAll(k, gone))
  {
    assert n == Core(n).(sessions := n.sessions) && k == Core(k).(sessions := k.sessions);
    assert Core(CutAll(n, gone)).sessions == Core(n).sessions;
    assert Core(CutAll(k, gone)).sessions == Core(k).sessions;
  }

  /** One turn of the loop, logs aside. */
  lemma SendOneCore(n: Node, p: int, m: Message, broken: set<int>)
    requires n.up <= n.out.Keys && Sendable(m)
    ensures Core(SendOne(n, p, m, broken)) ==
            Core(if p !in n.up then n else if p in broken then CutAll(n, {p}) else Spread(n, {p}, m))
  {
    if p in n.up {
      if p in broken {
        CutIsCutAll(n, p);
        var cut := Cut(n, p);
        CorePost(cut, cut.Authenticated() - {}, Presence(cut.users.Keys));
      } else {
        WireFaithful(n.id, m);
        assert Send(n, p, m).out == Spread(n, {p}, m).out;
      }
    }
  }

  /** The packet for the peers whose sockets work, no links to the others. */
  function Outcome(n: Node, ps: set<int>, m: Message, broken: set<int>): Node {
    CutAll(Spread(n, ps * n.up - broken, m), ps * n.up * broken)
  }

  /** The peers whose sockets work get the packet; the links of the others are down and
      all that came over them is forgotten; nothing else differs but what clients are
      told of the users online. */
  lemma {:induction false} FailedSendIsLinkLoss(n: Node, ps: seq<int>, m: Message, broken: set<int>)
    requires NoDuplicates(ps) && n.up <= n.out.Keys && Sendable(m)
    ensures Core(SendEach(n, ps, m, broken)) == Core(Outcome(n, Elements(ps), m, broken))
    decreases |ps|
  {
    if ps == [] {
      assert Elements(ps) == {};
      NoPeers(n, m, broken);
    } else {
      var p, more := ps[0], ps[1..];
      var x := SendOne(n, p, m, broken);
      SendOneCore(n, p, m, broken);
      assert x.up == Core(x).up && x.out == Core(x).out;
      FailedSendIsLinkLoss(x, more, m, broken);
      assert Elements(ps) == {p} + Elements(more) && p !in Elements(more);
      if p !in n.up {
        SamePeers(n, x, Elements(ps), Elements(more), m, broken);
      } else if p in broken {
        AfterCut(n, x, p, Elements(ps), Elements(more), m, broken);
      } else {
        AfterSend(n, x, p, Elements(ps), Elements(more), m, broken);
      }
    }
  }

  lemma NoPeers(n: Node, m: Message, broken: set<int>)
    ensures Outcome(n, {}, m, broken) == n
  {
    assert {} * n.up * broken == {} && {} * n.up - broken == {};
    CutNone(Spread(n, {}, m));
    assert Spread(n, {}, m).out == n.out;
  }

  lemma OutcomeCore(n: Node, k: Node, ps: set<int>, m: Message, broken: set<int>)
    requires Core(n) == Core(k)
    ensures Core(Outcome(n, ps, m, broken)) == Core(Outcome(k, ps, m, broken))
  {
    assert n.up == Core(n).up && k.up == Core(k).up;
    CoreSpread(n, k, ps * n.up - broken, m);
    CoreCutAll(Spread(n, ps * n.up - broken, m), Spread(k, ps * n.up - broken, m), ps * n.up * broken);
  }

  lemma SamePeers(n: Node, x: Node, ps: set<int>, more: set<int>, m: Message, broken: set<int>)
    requires Core(x) == Core(n) && ps * n.up == more * n.up
    ensures Core(Outcome(x, more, m, broken)) == Core(Outcome(n, ps, m, broken))
  {
    OutcomeCore(x, n, more, m, broken);
  }

  lemma AfterCut(n: Node, x: Node, p: int, ps: set<int>, more: set<int>, m: Message, broken: set<int>)
    requires Core(x) == Core(CutAll(n, {p})) && p in n.up && p in broken && ps == {p} + more && p !in more
    ensures Core(Outcome(x, more, m, broken)) == Core(Outcome(n, ps, m, broken))
  {
    var c := CutAll(n, {p});
    OutcomeCore(x, c, more, m, broken);
    assert more * c.up - broken == ps * n.up - broken;
    assert ps * n.up * broken == {p} + more * c.up * broken;
    CutThenSend(n, p, ps * n.up - broken, more * c.up * broken, m);
  }

  lemma AfterSend(n: Node, x: Node, p: int, ps: set<int>, more: set<int>, m: Message, broken: set<int>)
    requires Core(x) == Core(Spread(n, {p}, m)) && p in n.up && p !in broken && ps == {p} + more && p !in more
    ensures Core(Outcome(x, more, m, broken)) == Core(Outcome(n, ps, m, broken))
  {
    var s := Spread(n, {p}, m);
    OutcomeCore(x, s, more, m, broken);
    SpreadTwice(n, {p}, more * n.up - broken, m);
    assert ps * n.up - broken == {p} + (more * n.up - broken);
    assert ps * n.up * broken == more * n.up * broken;
  }
}
