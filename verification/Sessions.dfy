/** The two session indexes of a server, its share of the user directory, and the rooms
    its sessions have joined. */
module Sessions {
  import opened Bytes
  import opened Messages
  import opened Nodes
  import opened NodeFacts
  import opened Cluster

  /** A name in the index leads to a live session of that name; the names in the index
      are the users whom the directory places on this server. */
  ghost predicate NameAgrees(n: Node, u: Text) {
    && (u in n.byName ==>
          u != [] && n.byName[u] in n.live && n.byName[u] in n.sessions && n.sessions[n.byName[u]].name == u)
    && (u in n.byName <==> n.Location(u) == Some(n.id))
  }

  /** A live session that has a name is found under it, and the local members of the
      rooms it has joined include that name. */
  ghost predicate SessionAgrees(n: Node, h: Handle) {
    h in n.live ==>
      h in n.sessions &&
      var me := n.sessions[h];
      (if me.name == [] then me.rooms == {} else me.name in n.byName && n.byName[me.name] == h) &&
      forall r <- me.rooms :: me.name in n.Local(r)
  }

  ghost predicate IndexAgrees(n: Node) {
    && (forall u :: NameAgrees(n, u))
    && (forall h :: SessionAgrees(n, h))
  }

  ghost predicate IndexesAgree(c: Cluster) {
    forall s <- c.nodes :: IndexAgrees(c.nodes[s])
  }

  /** A session logs in successfully at most once. */
  predicate LogsInOnce(n: Node, h: Handle, q: Request) {
    q.Login? && h in n.sessions ==> !n.sessions[h].authenticated
  }

  lemma LoginIndex(n: Node, h: Handle, name: Text)
    requires Sane(n) && IndexAgrees(n) && h in n.live && n.sessions[h].name == []
    requires ValidName(name) && name !in n.users
    ensures IndexAgrees(Register(n, h, name))
  {
    var k := Register(n, h, name);
    assert NameAgrees(n, name) && SessionAgrees(n, h);
    forall u
      ensures NameAgrees(k, u)
    {
      assert NameAgrees(n, u);
      if u in n.byName { assert n.byName[u] != h; }
    }
    forall g
      ensures SessionAgrees(k, g)
    {
      assert SessionAgrees(n, g);
    }
  }

  lemma JoinIndex(n: Node, h: Handle, room: Text)
    requires Sane(n) && IndexAgrees(n) && h in n.live && n.sessions[h].authenticated && room != []
    ensures IndexAgrees(TablesAfter(n, h, Join(room)))
  {
    var k := TablesAfter(n, h, Join(room));
    forall u
      ensures NameAgrees(k, u)
    {
      assert NameAgrees(n, u);
    }
    forall g
      ensures SessionAgrees(k, g)
    {
      assert SessionAgrees(n, g);
      assert forall r :: n.Local(r) <= k.Local(r);
    }
  }

  lemma LeaveIndex(n: Node, h: Handle, room: Text)
    requires Sane(n) && IndexAgrees(n) && h in n.live && n.sessions[h].authenticated
    requires room != [] && room in n.sessions[h].rooms
    ensures IndexAgrees(TablesAfter(n, h, Leave(room)))
  {
    var k := TablesAfter(n, h, Leave(room));
    forall u
      ensures NameAgrees(k, u)
    {
      assert NameAgrees(n, u);
    }
    assert SessionAgrees(n, h);
    forall g
      ensures SessionAgrees(k, g)
    {
      assert SessionAgrees(n, g);
      assert forall r :: k.Local(r) == if r == room then n.Local(r) - {n.sessions[h].name} else n.Local(r);
    }
  }

  lemma AskIndex(n: Node, h: Handle, q: Request)
    requires Sane(n) && IndexAgrees(n) && h in n.live && LogsInOnce(n, h, q)
    ensures IndexAgrees(TablesAfter(n, h, q))
  {
    var me := n.sessions[h];
    match q
    case Login(name) => if ValidName(name) && name !in n.users { LoginIndex(n, h, name); }
    case Join(room) => if me.authenticated && room != [] { JoinIndex(n, h, room); }
    case Leave(room) => if me.authenticated && room != [] && room in me.rooms { LeaveIndex(n, h, room); }
    case _ =>
  }

  lemma HangupIndex(n: Node, h: Handle)
    requires Sane(n) && IndexAgrees(n) && h in n.live
    ensures IndexAgrees(TablesAfterHangup(n, h))
  {
    var k := TablesAfterHangup(n, h);
    assert SessionAgrees(n, h);
    forall u
      ensures NameAgrees(k, u)
    {
      assert NameAgrees(n, u);
    }
    forall g
      ensures SessionAgrees(k, g)
    {
      assert SessionAgrees(n, g);
    }
  }

  /** Tables that differ only in the entries of users placed elsewhere and in remote
      room members agree as well. */
  lemma ElsewhereIndex(n: Node, k: Node)
    requires IndexAgrees(n) && k.id == n.id && k.byName == n.byName && k.live == n.live && k.sessions == n.sessions
    requires forall u :: n.Location(u) == Some(n.id) <==> k.Location(u) == Some(n.id)
    requires forall r :: k.Local(r) == n.Local(r)
    ensures IndexAgrees(k)
  {
    forall u
      ensures NameAgrees(k, u)
    {
      assert NameAgrees(n, u);
    }
    forall g
      ensures SessionAgrees(k, g)
    {
      assert SessionAgrees(n, g);
    }
  }

  /** News about a user whom the directory places here would break the agreement. */
  lemma ReceiveIndex(n: Node, p: int, m: Message)
    requires Sane(n) && IndexAgrees(n)
    requires m.ReplicateUser? ==> m.server != n.id && n.Location(m.user) != Some(n.id)
    ensures IndexAgrees(TablesAfterReceive(n, p, m))
  {
    ElsewhereIndex(n, TablesAfterReceive(n, p, m));
  }

  lemma PeerDownIndex(n: Node, p: int)
    requires Sane(n) && IndexAgrees(n) && p != n.id
    ensures IndexAgrees(PeerDownTables(n, p))
  {
    ElsewhereIndex(n, PeerDownTables(n, p));
  }

  lemma EmitIndex(n: Node, e: Emission)
    requires IndexAgrees(n)
    ensures IndexAgrees(Emit(n, e))
  {
    ElsewhereIndex(n, Emit(n, e));
  }

  lemma LinkUpIndex(n: Node, h: Handle, p: int)
    requires Sane(n) && IndexAgrees(n)
    ensures IndexAgrees(PeerUp(n, p))
    ensures h in n.live && !n.sessions[h].authenticated ==> IndexAgrees(Promote(n, h, p))
  {
    ElsewhereIndex(n, PeerUp(n, p));
    if h in n.live && !n.sessions[h].authenticated {
      var k := Promote(n, h, p);
      forall u
        ensures NameAgrees(k, u)
      {
        assert NameAgrees(n, u);
      }
      forall g
        ensures SessionAgrees(k, g)
      {
        assert SessionAgrees(n, g);
      }
    }
  }

  lemma AcceptIndex(n: Node, h: Handle)
    requires Sane(n) && IndexAgrees(n) && h !in n.sessions
    ensures IndexAgrees(AcceptSession(n, h))
  {
    var k := AcceptSession(n, h);
    forall u
      ensures NameAgrees(k, u)
    {
      assert NameAgrees(n, u);
    }
    forall g
      ensures SessionAgrees(k, g)
    {
      assert SessionAgrees(n, g);
    }
  }

  lemma SameIndex(n: Node, k: Node)
    requires Core(n) == Core(k) && IndexAgrees(k)
    ensures IndexAgrees(n)
  {
    assert n.sessions.Keys == Core(n).sessions.Keys == k.sessions.Keys;
    forall h | h in n.sessions
      ensures n.sessions[h].name == k.sessions[h].name && n.sessions[h].rooms == k.sessions[h].rooms
    {
      SameSessions(n, k, h);
    }
    forall u
      ensures NameAgrees(n, u)
    {
      assert NameAgrees(k, u);
    }
    forall g
      ensures SessionAgrees(n, g)
    {
      assert SessionAgrees(k, g);
    }
  }

  /** A login keeps the indexes in agreement if and only if it is refused or is the first
      of its session: the server takes a second one, too. */
  lemma LoginKeepsIndex(n: Node, h: Handle, name: Text)
    requires Sane(n) && IndexAgrees(n) && h in n.live
    ensures IndexAgrees(HandleRequest(n, h, Login(name), {})) <==>
            !n.sessions[h].authenticated || !ValidName(name) || name in n.users
  {
    var q := Login(name);
    var k, e := HandleRequest(n, h, q, {}), Emit(TablesAfter(n, h, q), EmissionOf(n, h, q));
    RequestCore(n, h, q);
    if !n.sessions[h].authenticated {
      AskIndex(n, h, q);
      EmitIndex(TablesAfter(n, h, q), EmissionOf(n, h, q));
      SameIndex(k, e);
    } else if !ValidName(name) || name in n.users {
      EmitIndex(n, Quiet);
      SameIndex(k, e);
    } else {
      SecondLoginDisagrees(n, h, name, k);
    }
  }

  lemma SecondLoginDisagrees(n: Node, h: Handle, name: Text, k: Node)
    requires Sane(n) && IndexAgrees(n) && h in n.live && n.sessions[h].authenticated
    requires ValidName(name) && name !in n.users
    requires Core(k) == Core(Emit(Register(n, h, name), To(n.up, ReplicateUser(name, n.id, true))))
    ensures !IndexAgrees(k)
  {
    var e := Emit(Register(n, h, name), To(n.up, ReplicateUser(name, n.id, true)));
    var first := n.sessions[h].name;
    assert SessionAgrees(n, h) && NameAgrees(n, first) && NameAgrees(n, name);
    assert k.sessions.Keys == Core(k).sessions.Keys == e.sessions.Keys;
    SameSessions(k, e, h);
    assert k.byName == Core(k).byName == e.byName;
    assert !NameAgrees(k, first);
  }

  /** Nothing stops a session from logging in twice. Its first name then outlives it,
      in the directory and in the name index. */
  lemma SecondLoginLeavesFirstName(n: Node, h: Handle, name: Text)
    requires Sane(n) && IndexAgrees(n) && h in n.live && n.sessions[h].authenticated
    requires ValidName(name) && name !in n.users
    ensures var first := n.sessions[h].name;
            var k := Hangup(HandleRequest(n, h, Login(name), {}), h, {});
            k.Location(first) == Some(n.id) && first in k.byName && k.byName[first] !in k.live
  {
    assert SessionAgrees(n, h);
    assert NameAgrees(n, n.sessions[h].name) && NameAgrees(n, name);
    RequestCore(n, h, Login(name));
    TablesAfterSane(n, h, Login(name));
    EmitSane(TablesAfter(n, h, Login(name)), EmissionOf(n, h, Login(name)));
    var twice := Emit(TablesAfter(n, h, Login(name)), EmissionOf(n, h, Login(name)));
    FirstNameStays(HandleRequest(n, h, Login(name), {}), twice, h, n.sessions[h].name);
  }

  lemma FirstNameStays(n: Node, k: Node, h: Handle, first: Text)
    requires Core(n) == Core(k) && Sane(k) && h in k.live
    requires k.Location(first) == Some(k.id) && first in k.byName && k.byName[first] == h
    requires k.sessions[h].name != first && first != []
    ensures h in n.sessions
    ensures var d := Hangup(n, h, {});
            d.Location(first) == Some(n.id) && first in d.byName && d.byName[first] !in d.live
  {
    SaneTables(n, k);
    SameSessions(n, k, h);
    HangupCore(n, h);
    var d := TablesAfterHangup(n, h);
    assert Core(Hangup(n, h, {})) == Core(Emit(d, EmissionOfHangup(n, h)));
    assert d.Location(first) == Some(n.id) && first in d.byName && d.byName[first] !in d.live;
  }
}
