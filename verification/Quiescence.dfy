/** A cluster left alone comes to rest, and in which order packets are handled on the
    way makes no difference to where it rests. */
module Quiescence {
  import opened Bytes
  import opened Sets
  import opened Messages
  import opened Nodes
  import opened NodeFacts
  import opened Cluster
  import opened RoomRoutes
  import opened Directory

  predicate DeliveriesOnly(c: Cluster, l: Label) {
    l.Deliver?
  }

  ghost predicate Quiet(c: Cluster) {
    forall s <- c.nodes, t <- c.nodes :: c.nodes[s].Queue(t) == []
  }

  // The measure: a heartbeat causes one more packet, every other packet none.

  function Weight(m: Message): nat {
    if m.Heartbeat? then 2 else 1
  }

  function QueueWeight(q: seq<Message>): nat {
    if q == [] then 0 else Weight(q[0]) + QueueWeight(q[1..])
  }

  ghost function NodeWeight(n: Node): nat {
    Sum(n.out.Keys, p => QueueWeight(n.Queue(p)))
  }

  ghost function ClusterWeight(c: Cluster): nat {
    Total(c, n => NodeWeight(n))
  }

  lemma {:induction false} QueueWeightAppend(q: seq<Message>, m: Message)
    ensures QueueWeight(q + [m]) == QueueWeight(q) + Weight(m)
  {
    if q == [] {
      assert (q + [m])[1..] == [];
    } else {
      assert (q + [m])[1..] == q[1..] + [m];
      QueueWeightAppend(q[1..], m);
    }
  }

  lemma NodeWeightChange(n: Node, k: Node, p: int)
    requires n.out.Keys == k.out.Keys && p in n.out
    requires forall r <- n.out | r != p :: k.out[r] == n.out[r]
    ensures NodeWeight(k) + QueueWeight(n.Queue(p)) == NodeWeight(n) + QueueWeight(k.Queue(p))
  {
    SumChange(n.out.Keys, r => QueueWeight(n.Queue(r)), r => QueueWeight(k.Queue(r)), p);
  }

  lemma SameWeight(a: Cluster, b: Cluster)
    requires SameTables(a, b)
    ensures ClusterWeight(a) == ClusterWeight(b)
  {
    forall s <- a.nodes
      ensures NodeWeight(a.nodes[s]) == NodeWeight(b.nodes[s])
    {
      assert Core(a.nodes[s]) == Core(b.nodes[s]);
      SumSame(a.nodes[s].out.Keys, r => QueueWeight(a.nodes[s].Queue(r)), r => QueueWeight(b.nodes[s].Queue(r)));
    }
    TotalSame(a, b, n => NodeWeight(n));
  }

  lemma PopWeight(n: Node, t: int)
    requires t in n.out && n.Queue(t) != []
    ensures NodeWeight(Pop(n, t)) + Weight(n.Queue(t)[0]) == NodeWeight(n)
  {
    NodeWeightChange(n, Pop(n, t), t);
  }

  lemma ReceiveWeight(n: Node, p: int, m: Message)
    requires p in n.out
    ensures NodeWeight(TablesAfterReceive(n, p, m)) < NodeWeight(n) + Weight(m)
  {
    var k := TablesAfterReceive(n, p, m);
    NodeWeightChange(n, k, p);
    QueueWeightAppend(n.Queue(p), HeartbeatAck);
  }

  lemma DeliverWeight(c: Cluster, s: int, t: int)
    requires Sound(c) && Enabled(c, Deliver(s, t))
    ensures ClusterWeight(Step(c, Deliver(s, t))) < ClusterWeight(c)
  {
    var m := c.nodes[s].Queue(t)[0];
    var k := TablesAfterReceive(c.nodes[t], s, m);
    PopWeight(c.nodes[s], t);
    ReceiveWeight(c.nodes[t], s, m);
    TotalUpdateTwo(c, n => NodeWeight(n), s, Pop(c.nodes[s], t), t, k);
    DeliverTables(c, s, t);
    SameWeight(Step(c, Deliver(s, t)), Tables(c, Deliver(s, t)));
  }

  /** No schedule of deliveries is longer than the weight of what is under way. */
  lemma {:induction false} DeliveriesEnd(c: Cluster, ls: seq<Label>)
    requires Sound(c) && Run(DeliveriesOnly, c, ls)
    ensures |ls| + ClusterWeight(End(DeliveriesOnly, c, ls)) <= ClusterWeight(c)
    decreases |ls|
  {
    if ls != [] {
      StepSound(c, ls[0]);
      DeliverWeight(c, ls[0].s, ls[0].t);
      DeliveriesEnd(Step(c, ls[0]), ls[1..]);
    }
  }

  /** As long as something is under way there is a packet to handle. */
  lemma BusyCanDeliver(c: Cluster)
    requires Sound(c) && !Quiet(c)
    ensures exists s, t :: Enabled(c, Deliver(s, t))
  {
    var s, t :| s in c.nodes && t in c.nodes && c.nodes[s].Queue(t) != [];
    assert t in c.nodes[s].out && s != t;
    assert Enabled(c, Deliver(s, t));
  }

  /** Handling whatever there is to handle, in any order, brings every cluster to rest. */
  lemma {:induction false} RestIsReached(c: Cluster) returns (ls: seq<Label>)
    requires Sound(c)
    ensures Run(DeliveriesOnly, c, ls) && Quiet(End(DeliveriesOnly, c, ls))
    decreases ClusterWeight(c)
  {
    ls := [];
    if !Quiet(c) {
      BusyCanDeliver(c);
      var s, t :| Enabled(c, Deliver(s, t));
      StepSound(c, Deliver(s, t));
      DeliverWeight(c, s, t);
      var more := RestIsReached(Step(c, Deliver(s, t)));
      OneStep(DeliveriesOnly, c, Deliver(s, t), more);
      ls := [Deliver(s, t)] + more;
    }
  }

  // What deliveries cannot change.

  /** Room tables: local members, entries of servers outside the cluster, and the final
      entry of every peer. */
  ghost predicate RoomFixed(c: Cluster, d: Cluster, t: int, room: Text)
    requires t in c.nodes && c.nodes.Keys == d.nodes.Keys
  {
    && d.nodes[t].Local(room) == c.nodes[t].Local(room)
    && forall x :: FinalMember(d, x, t, room) == FinalMember(c, x, t, room)
  }

  /** Whether `t` will list `x` for `room` when the cluster has come to rest. */
  predicate FinalMember(c: Cluster, x: int, t: int, room: Text)
    requires t in c.nodes
  {
    if x in c.nodes && x != t then RouteView(c, x, t, room) else x in c.nodes[t].Remote(room)
  }

  lemma DeliverFixesMember(c: Cluster, s: int, y: int, x: int, t: int, room: Text)
    requires Sound(c) && Honest(c) && Enabled(c, Deliver(s, y)) && t in c.nodes
    ensures FinalMember(Tables(c, Deliver(s, y)), x, t, room) == FinalMember(c, x, t, room)
  {
    if x in c.nodes && x != t {
      if s == x && y == t { DeliverHere(c, x, t, room); } else { DeliverElsewhere(c, s, y, x, t, room); }
    } else {
      DeliverFixesOthers(c, s, y, x, t, room);
    }
  }

  lemma DeliverFixesOthers(c: Cluster, s: int, y: int, x: int, t: int, room: Text)
    requires Sound(c) && Honest(c) && Enabled(c, Deliver(s, y)) && t in c.nodes && (x in c.nodes ==> x == t)
    ensures x in Tables(c, Deliver(s, y)).nodes[t].Remote(room) <==> x in c.nodes[t].Remote(room)
  {
    var m := c.nodes[s].Queue(y)[0];
    assert m in c.nodes[s].Queue(y);
    assert HonestNode(c.nodes[s]);
    ReceiveRooms(c.nodes[y], s, m, room, x);
  }

  lemma DeliverFixesLocal(c: Cluster, s: int, y: int, t: int, room: Text)
    requires Sound(c) && Enabled(c, Deliver(s, y)) && t in c.nodes
    ensures Tables(c, Deliver(s, y)).nodes[t].Local(room) == c.nodes[t].Local(room)
  {
    ReceiveRooms(c.nodes[y], s, c.nodes[s].Queue(y)[0], room, s);
  }

  lemma DeliverFixesRoom(c: Cluster, l: Label, t: int, room: Text)
    requires Sound(c) && Honest(c) && Enabled(c, l) && l.Deliver? && t in c.nodes
    ensures RoomFixed(c, Step(c, l), t, room)
  {
    forall x
      ensures FinalMember(Tables(c, l), x, t, room) == FinalMember(c, x, t, room)
    {
      DeliverFixesMember(c, l.s, l.t, x, t, room);
    }
    DeliverFixesLocal(c, l.s, l.t, t, room);
    StepTables(c, l);
    SameRoomFixed(c, Step(c, l), Tables(c, l), t, room);
  }

  lemma SameRoomFixed(c: Cluster, a: Cluster, b: Cluster, t: int, room: Text)
    requires SameTables(a, b) && c.nodes.Keys == b.nodes.Keys && t in c.nodes && RoomFixed(c, b, t, room)
    ensures RoomFixed(c, a, t, room)
  {
    assert Core(a.nodes[t]) == Core(b.nodes[t]);
    forall x
      ensures FinalMember(a, x, t, room) == FinalMember(c, x, t, room)
    {
      if x in a.nodes { assert Core(a.nodes[x]) == Core(b.nodes[x]); }
      assert FinalMember(b, x, t, room) == FinalMember(c, x, t, room);
    }
  }

  // Directories: the last news of a user in a queue decides.

  /** What the news of `u` in a queue comes to: the place named by the last of it, or none. */
  function LastNews(q: seq<Message>, u: Text): Option<int> {
    UserFold(q, u, None)
  }

  lemma {:induction false} FoldIsLastNews(q: seq<Message>, u: Text, entry: Option<int>)
    requires !NoNews(q, u)
    ensures UserFold(q, u, entry) == LastNews(q, u)
  {
    if !NewsOf(q[0], u) {
      assert !NoNews(q[1..], u);
      FoldIsLastNews(q[1..], u, entry);
    }
  }

  /** Taking the first packet off a queue leaves its last news, unless it was that. */
  lemma LastNewsOfRest(q: seq<Message>, u: Text)
    requires q != []
    ensures NoNews(q, u) <==> !NewsOf(q[0], u) && NoNews(q[1..], u)
    ensures !NoNews(q[1..], u) ==> LastNews(q[1..], u) == LastNews(q, u)
    ensures NoNews(q[1..], u) ==> LastNews(q, u) == UserStep(q[0], u, None)
  {
    assert q == [q[0]] + q[1..];
    if NoNews(q[1..], u) {
      UserFoldNoNews(q[1..], u, UserStep(q[0], u, None));
    } else {
      FoldIsLastNews(q[1..], u, UserStep(q[0], u, None));
    }
  }

  lemma LastNewsWithAck(q: seq<Message>, u: Text)
    ensures NoNews(q + [HeartbeatAck], u) <==> NoNews(q, u)
    ensures LastNews(q + [HeartbeatAck], u) == LastNews(q, u)
  {
    UserFoldAppend(q, HeartbeatAck, u, None);
    assert forall m <- q :: m in q + [HeartbeatAck];
  }

  /** `x` has news of `u` under way to `t`. */
  predicate Tells(c: Cluster, x: int, u: Text, t: int) {
    x in c.nodes && !NoNews(c.nodes[x].Queue(t), u)
  }

  /** All the servers with news of `u` under way to `t` say the same in the end. */
  ghost predicate SameLastNews(c: Cluster, u: Text, t: int) {
    forall x, y | Tells(c, x, u, t) && Tells(c, y, u, t) ::
      LastNews(c.nodes[x].Queue(t), u) == LastNews(c.nodes[y].Queue(t), u)
  }

  /** Whoever has news of `u` for `t` has `e` for its last; without news `e` is the entry. */
  ghost predicate Destined(c: Cluster, u: Text, t: int, e: Option<int>) {
    && t in c.nodes
    && (forall x | Tells(c, x, u, t) :: LastNews(c.nodes[x].Queue(t), u) == e)
    && ((exists x :: Tells(c, x, u, t)) || c.nodes[t].Location(u) == e)
  }

  lemma SameNewsIsDestined(c: Cluster, u: Text, t: int)
    requires t in c.nodes && SameLastNews(c, u, t)
    ensures exists e :: Destined(c, u, t, e)
  {
    if x :| Tells(c, x, u, t) {
      assert Destined(c, u, t, LastNews(c.nodes[x].Queue(t), u));
    } else {
      assert Destined(c, u, t, c.nodes[t].Location(u));
    }
  }

  lemma DeliverQueue(c: Cluster, x: int, y: int, z: int, t: int)
    requires Sound(c) && Enabled(c, Deliver(x, y)) && z in c.nodes
    ensures var p, q := c.nodes[z].Queue(t), Tables(c, Deliver(x, y)).nodes[z].Queue(t);
            q == p || q == p + [HeartbeatAck] || (z == x && t == y && p != [] && q == p[1..])
  {
    var m := c.nodes[x].Queue(y)[0];
    if t in c.nodes[y].out {
      ReceiveQueue(c.nodes[y], x, m, t);
    } else {
      assert TablesAfterReceive(c.nodes[y], x, m).Queue(t) == [];
    }
  }

  /** What a delivery does to the news from `z` to `t`: the queue keeps its last news, or
      that was just handled at `t`. */
  lemma DeliverTells(c: Cluster, x: int, y: int, z: int, u: Text, t: int)
    requires Sound(c) && Enabled(c, Deliver(x, y)) && z in c.nodes && t in c.nodes
    ensures var d := Tables(c, Deliver(x, y));
            (Tells(d, z, u, t) ==>
               Tells(c, z, u, t) && LastNews(d.nodes[z].Queue(t), u) == LastNews(c.nodes[z].Queue(t), u)) &&
            (Tells(c, z, u, t) && !Tells(d, z, u, t) ==>
               z == x && t == y && d.nodes[t].Location(u) == LastNews(c.nodes[z].Queue(t), u))
  {
    DeliverQueue(c, x, y, z, t);
    var p := c.nodes[z].Queue(t);
    LastNewsWithAck(p, u);
    if z == x && t == y {
      LastNewsOfRest(p, u);
      ReceiveUsers(c.nodes[y], x, p[0], u);
    }
  }

  lemma DeliverKeepsEntry(c: Cluster, x: int, y: int, u: Text, t: int)
    requires Sound(c) && Enabled(c, Deliver(x, y)) && t in c.nodes && !Tells(c, x, u, t)
    ensures Tables(c, Deliver(x, y)).nodes[t].Location(u) == c.nodes[t].Location(u)
  {
    var m := c.nodes[x].Queue(y)[0];
    assert m in c.nodes[x].Queue(y);
    ReceiveUsers(c.nodes[y], x, m, u);
  }

  lemma DeliverKeepsDestiny(c: Cluster, x: int, y: int, u: Text, t: int, e: Option<int>)
    requires Sound(c) && Enabled(c, Deliver(x, y)) && Destined(c, u, t, e)
    ensures Destined(Tables(c, Deliver(x, y)), u, t, e)
  {
    var d := Tables(c, Deliver(x, y));
    forall z | Tells(d, z, u, t) ensures LastNews(d.nodes[z].Queue(t), u) == e {
      DeliverTells(c, x, y, z, u, t);
    }
    if z :| Tells(c, z, u, t) {
      DeliverTells(c, x, y, z, u, t);
      if !Tells(d, z, u, t) {
        assert LastNews(c.nodes[z].Queue(t), u) == e;
      }
    } else {
      DeliverKeepsEntry(c, x, y, u, t);
    }
  }

  lemma SameTells(a: Cluster, b: Cluster, u: Text, t: int)
    requires SameTables(a, b) && t in b.nodes
    ensures a.nodes[t].Location(u) == b.nodes[t].Location(u)
    ensures forall x :: Tells(a, x, u, t) <==> Tells(b, x, u, t)
    ensures forall x <- b.nodes :: a.nodes[x].Queue(t) == b.nodes[x].Queue(t)
  {
    assert Core(a.nodes[t]) == Core(b.nodes[t]);
    forall x | x in a.nodes
      ensures a.nodes[x].Queue(t) == b.nodes[x].Queue(t)
    {
      assert Core(a.nodes[x]) == Core(b.nodes[x]);
    }
  }

  lemma StepKeepsDestiny(c: Cluster, l: Label, u: Text, t: int, e: Option<int>)
    requires Sound(c) && Enabled(c, l) && l.Deliver? && Destined(c, u, t, e)
    ensures Destined(Step(c, l), u, t, e)
  {
    DeliverKeepsDestiny(c, l.s, l.t, u, t, e);
    StepTables(c, l);
    SameDestined(Step(c, l), Tables(c, l), u, t, e);
  }

  lemma SameDestined(a: Cluster, b: Cluster, u: Text, t: int, e: Option<int>)
    requires SameTables(a, b) && Destined(b, u, t, e)
    ensures Destined(a, u, t, e)
  {
    SameTells(a, b, u, t);
    if x :| Tells(b, x, u, t) {
      assert Tells(a, x, u, t);
    }
  }

  // Schedules.

  lemma {:induction false} ScheduleFixesRoom(c: Cluster, ls: seq<Label>, t: int, room: Text)
    requires Sound(c) && Honest(c) && Run(DeliveriesOnly, c, ls) && t in c.nodes
    ensures End(DeliveriesOnly, c, ls).nodes.Keys == c.nodes.Keys
    ensures RoomFixed(c, End(DeliveriesOnly, c, ls), t, room)
    decreases |ls|
  {
    if ls != [] {
      StepSound(c, ls[0]);
      StepHonest(c, ls[0]);
      DeliverFixesRoom(c, ls[0], t, room);
      ScheduleFixesRoom(Step(c, ls[0]), ls[1..], t, room);
    }
  }

  lemma {:induction false} ScheduleKeepsDestiny(c: Cluster, ls: seq<Label>, u: Text, t: int, e: Option<int>)
    requires Sound(c) && Run(DeliveriesOnly, c, ls) && Destined(c, u, t, e)
    ensures Destined(End(DeliveriesOnly, c, ls), u, t, e)
    decreases |ls|
  {
    if ls != [] {
      StepSound(c, ls[0]);
      StepKeepsDestiny(c, ls[0], u, t, e);
      ScheduleKeepsDestiny(Step(c, ls[0]), ls[1..], u, t, e);
    }
  }

  /** A schedule of deliveries that brings the cluster to rest. */
  ghost predicate ToRest(c: Cluster, ls: seq<Label>) {
    Run(DeliveriesOnly, c, ls) && Quiet(End(DeliveriesOnly, c, ls))
  }

  /** Two servers agree on directory and room members. */
  ghost predicate SameBeliefs(n: Node, k: Node) {
    n.users == k.users && forall room :: n.Local(room) == k.Local(room) && n.Remote(room) == k.Remote(room)
  }

  /** Where a schedule comes to rest can be read off its start: in the room tables. */
  lemma RestRooms(c: Cluster, ls: seq<Label>, t: int, room: Text)
    requires Sound(c) && Honest(c) && t in c.nodes && ToRest(c, ls)
    ensures var d := End(DeliveriesOnly, c, ls);
            d.nodes.Keys == c.nodes.Keys && d.nodes[t].Local(room) == c.nodes[t].Local(room) &&
            forall x :: x in d.nodes[t].Remote(room) <==> FinalMember(c, x, t, room)
  {
    var d := End(DeliveriesOnly, c, ls);
    ScheduleFixesRoom(c, ls, t, room);
    forall x
      ensures x in d.nodes[t].Remote(room) <==> FinalMember(c, x, t, room)
    {
      assert FinalMember(d, x, t, room) == FinalMember(c, x, t, room);
      if x in d.nodes { assert d.nodes[x].Queue(t) == []; }
    }
  }

  /** And in the directories, where the queues agree. */
  lemma RestUsers(c: Cluster, ls: seq<Label>, u: Text, t: int, e: Option<int>)
    requires Sound(c) && ToRest(c, ls) && Destined(c, u, t, e)
    ensures t in End(DeliveriesOnly, c, ls).nodes
    ensures End(DeliveriesOnly, c, ls).nodes[t].Location(u) == e
  {
    ScheduleKeepsDestiny(c, ls, u, t, e);
  }

  /** The room tables depend on no condition: all schedules agree. */
  lemma RestRoomsAgree(c: Cluster, ls: seq<Label>, ks: seq<Label>, t: int, room: Text)
    requires Sound(c) && Honest(c) && t in c.nodes && ToRest(c, ls) && ToRest(c, ks)
    ensures t in End(DeliveriesOnly, c, ls).nodes && t in End(DeliveriesOnly, c, ks).nodes
    ensures var n, k := End(DeliveriesOnly, c, ls).nodes[t], End(DeliveriesOnly, c, ks).nodes[t];
            n.Local(room) == k.Local(room) && n.Remote(room) == k.Remote(room)
  {
    RestRooms(c, ls, t, room);
    RestRooms(c, ks, t, room);
    var n, k := End(DeliveriesOnly, c, ls).nodes[t], End(DeliveriesOnly, c, ks).nodes[t];
    forall x
      ensures x in n.Remote(room) <==> x in k.Remote(room)
    {
      assert x in n.Remote(room) <==> FinalMember(c, x, t, room);
    }
  }

  /** Handling what others say about `u` first: what `y` says last stands in the end. */
  lemma {:induction false} LastWord(c: Cluster, y: int, u: Text, t: int) returns (ls: seq<Label>)
    requires Sound(c) && t in c.nodes && Tells(c, y, u, t)
    ensures ToRest(c, ls) && t in End(DeliveriesOnly, c, ls).nodes
    ensures End(DeliveriesOnly, c, ls).nodes[t].Location(u) == LastNews(c.nodes[y].Queue(t), u)
    decreases ClusterWeight(c)
  {
    var e := LastNews(c.nodes[y].Queue(t), u);
    if z :| Tells(c, z, u, t) && LastNews(c.nodes[z].Queue(t), u) != e {
      TellerDelivers(c, z, u, t);
      var l := Deliver(z, t);
      DeliverWeight(c, z, t);
      StepSound(c, l);
      DeliverTells(c, z, t, y, u, t);
      StepTables(c, l);
      SameTells(Step(c, l), Tables(c, l), u, t);
      assert Tells(Tables(c, l), y, u, t);
      var more := LastWord(Step(c, l), y, u, t);
      OneStep(DeliveriesOnly, c, l, more);
      ls := [l] + more;
    } else {
      assert Destined(c, u, t, e);
      ls := RestIsReached(c);
      RestUsers(c, ls, u, t, e);
    }
  }

  lemma TellerDelivers(c: Cluster, z: int, u: Text, t: int)
    requires Sound(c) && t in c.nodes && Tells(c, z, u, t)
    ensures Enabled(c, Deliver(z, t))
  {
    assert c.nodes[z].Queue(t) != [];
    assert t in c.nodes[z].out;
  }

  /** All schedules give `t` the same entry for `u`. */
  ghost predicate UserConfluent(c: Cluster, u: Text, t: int) {
    forall ls, ks | ToRest(c, ls) && ToRest(c, ks) ::
      EntryAfter(c, ls, u, t) == EntryAfter(c, ks, u, t)
  }

  ghost function EntryAfter(c: Cluster, ls: seq<Label>, u: Text, t: int): Option<int>
    requires Run(DeliveriesOnly, c, ls)
  {
    var d := End(DeliveriesOnly, c, ls);
    if t in d.nodes then d.nodes[t].Location(u) else None
  }

  /** All schedules of deliveries that bring the cluster to rest give a server the same
      entry for a user if and only if the news of the user under way to it comes, queue
      by queue, to the same. */
  lemma EntriesAgreeExactly(c: Cluster, u: Text, t: int)
    requires Sound(c) && t in c.nodes
    ensures UserConfluent(c, u, t) <==> SameLastNews(c, u, t)
  {
    if SameLastNews(c, u, t) {
      SameNewsIsDestined(c, u, t);
      var e :| Destined(c, u, t, e);
      forall ls | ToRest(c, ls) ensures EntryAfter(c, ls, u, t) == e {
        RestUsers(c, ls, u, t, e);
      }
    } else {
      TwoSourcesDisagree(c, u, t);
    }
  }

  /** Where two queues come to different things there are two schedules that leave
      different entries. */
  lemma TwoSourcesDisagree(c: Cluster, u: Text, t: int)
    requires Sound(c) && t in c.nodes && !SameLastNews(c, u, t)
    ensures exists ls, ks :: ToRest(c, ls) && ToRest(c, ks) && EntryAfter(c, ls, u, t) != EntryAfter(c, ks, u, t)
  {
    var x, y :| Tells(c, x, u, t) && Tells(c, y, u, t) &&
      LastNews(c.nodes[x].Queue(t), u) != LastNews(c.nodes[y].Queue(t), u);
    var ls := LastWord(c, x, u, t);
    var ks := LastWord(c, y, u, t);
    assert EntryAfter(c, ls, u, t) != EntryAfter(c, ks, u, t);
  }

  /** Since servers speak for themselves only, that is: one server at most has news of
      the user under way, or the last news of every one is a logout. */
  lemma SameLastNewsMeans(c: Cluster, u: Text, t: int)
    requires Sound(c) && Honest(c) && t in c.nodes
    ensures SameLastNews(c, u, t) <==>
            OneSource(c, u, t) || forall x | Tells(c, x, u, t) :: LastNews(c.nodes[x].Queue(t), u) == None
  {
    if SameLastNews(c, u, t) && !OneSource(c, u, t) {
      forall x | Tells(c, x, u, t) ensures LastNews(c.nodes[x].Queue(t), u) == None {
        assert !OnlyFrom(c, u, x, t);
        var y :| y in c.nodes && y != x && !NoNews(c.nodes[y].Queue(t), u);
        assert Tells(c, y, u, t);
        NewsNamesSender(c, x, u, t);
        NewsNamesSender(c, y, u, t);
      }
    }
  }

  lemma NewsNamesSender(c: Cluster, x: int, u: Text, t: int)
    requires Sound(c) && Honest(c) && Tells(c, x, u, t)
    ensures LastNews(c.nodes[x].Queue(t), u) in {None, Some(x)}
  {
    assert HonestNode(c.nodes[x]);
    assert c.nodes[x].Queue(t) != [];
    HonestNews(c.nodes[x].Queue(t), u, x, None);
  }

  lemma {:induction false} HonestNews(q: seq<Message>, u: Text, x: int, entry: Option<int>)
    requires entry in {None, Some(x)} && forall m <- q :: m.ReplicateUser? ==> m.server == x
    ensures UserFold(q, u, entry) in {None, Some(x)}
  {
    if q != [] {
      assert q[0] in q;
      HonestNews(q[1..], u, x, UserStep(q[0], u, entry));
    }
  }

  /** Only `o` has news of `u` under way to `t`. */
  ghost predicate OnlyFrom(c: Cluster, u: Text, o: int, t: int) {
    o in c.nodes && t in c.nodes && forall x <- c.nodes | x != o :: NoNews(c.nodes[x].Queue(t), u)
  }

  ghost predicate OneSource(c: Cluster, u: Text, t: int) {
    exists o :: OnlyFrom(c, u, o, t)
  }

  /** Two schedules leave `t` the same directory and room tables. */
  ghost predicate SameAfter(c: Cluster, ls: seq<Label>, ks: seq<Label>, t: int)
    requires Run(DeliveriesOnly, c, ls) && Run(DeliveriesOnly, c, ks)
  {
    var d, e := End(DeliveriesOnly, c, ls), End(DeliveriesOnly, c, ks);
    t in d.nodes && t in e.nodes && SameBeliefs(d.nodes[t], e.nodes[t])
  }

  ghost predicate Confluent(c: Cluster, t: int) {
    forall ls, ks | ToRest(c, ls) && ToRest(c, ks) :: SameAfter(c, ls, ks, t)
  }

  /** All schedules that bring the cluster to rest leave a server the same directory and
      room tables, if and only if for every user the news under way to it agrees. */
  lemma SchedulesAgree(c: Cluster, t: int)
    requires Sound(c) && Honest(c) && t in c.nodes
    ensures Confluent(c, t) <==> forall u :: SameLastNews(c, u, t)
  {
    if forall u :: SameLastNews(c, u, t) {
      forall ls, ks | ToRest(c, ls) && ToRest(c, ks) ensures SameAfter(c, ls, ks, t) {
        AgreeingSchedules(c, ls, ks, t);
      }
    } else {
      var u :| !SameLastNews(c, u, t);
      DisagreeingSchedules(c, u, t);
    }
  }

  lemma DisagreeingSchedules(c: Cluster, u: Text, t: int)
    requires Sound(c) && t in c.nodes && !SameLastNews(c, u, t)
    ensures !Confluent(c, t)
  {
    TwoSourcesDisagree(c, u, t);
    var ls, ks :| ToRest(c, ls) && ToRest(c, ks) && EntryAfter(c, ls, u, t) != EntryAfter(c, ks, u, t);
    DifferentAfter(c, ls, ks, u, t);
  }

  lemma DifferentAfter(c: Cluster, ls: seq<Label>, ks: seq<Label>, u: Text, t: int)
    requires Run(DeliveriesOnly, c, ls) && Run(DeliveriesOnly, c, ks)
    requires EntryAfter(c, ls, u, t) != EntryAfter(c, ks, u, t)
    ensures !SameAfter(c, ls, ks, t)
  {
  }

  lemma AgreeingSchedules(c: Cluster, ls: seq<Label>, ks: seq<Label>, t: int)
    requires Sound(c) && Honest(c) && t in c.nodes && ToRest(c, ls) && ToRest(c, ks)
    requires forall u :: SameLastNews(c, u, t)
    ensures SameAfter(c, ls, ks, t)
  {
    RestRooms(c, ls, t, []);
    RestRooms(c, ks, t, []);
    var n, k := End(DeliveriesOnly, c, ls).nodes[t], End(DeliveriesOnly, c, ks).nodes[t];
    forall room
      ensures n.Local(room) == k.Local(room) && n.Remote(room) == k.Remote(room)
    {
      RestRoomsAgree(c, ls, ks, t, room);
    }
    forall u
      ensures n.Location(u) == k.Location(u)
    {
      EntriesAgreeExactly(c, u, t);
      assert EntryAfter(c, ls, u, t) == EntryAfter(c, ks, u, t);
    }
    SameLocations(n, k);
  }

  lemma SameLocations(n: Node, k: Node)
    requires forall u :: n.Location(u) == k.Location(u)
    ensures n.users == k.users
  {
    forall u
      ensures u in n.users <==> u in k.users
      ensures u in n.users ==> n.users[u] == k.users[u]
    {
      assert n.Location(u) == k.Location(u);
    }
  }

  /** Every state of an orderly run meets the condition. */
  lemma OrderlyMeansOneSource(c: Cluster, u: Text, t: int)
    requires DirectoryOk(c) && t in c.nodes
    ensures OneSource(c, u, t) && SameLastNews(c, u, t)
  {
    assert Settled(c, u);
    var o :| Owned(c, u, o) && Exact(c, u, o);
    assert OnlyFrom(c, u, o, t);
    SameLastNewsMeans(c, u, t);
  }
}
