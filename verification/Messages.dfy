/** What servers tell each other, and how it is carried in packets. */
module Messages {
  import opened Bytes
  import opened Fields
  import opened Frames
  import opened Decimal

  datatype Message =
    | Heartbeat
    | HeartbeatAck
    | ReplicateUser(user: Text, server: int, online: bool)
    | RoutePrivate(sender: Text, receiver: Text, text: Text)
    | RouteBroadcast(sender: Text, text: Text)
    | RouteRoom(sender: Text, room: Text, text: Text)
    | RoomSync(room: Text, server: int, active: bool)
    | Unreadable

  const S2S_CONNECT: Byte := 100
  const S2S_HEARTBEAT: Byte := 101
  const S2S_HEARTBEAT_ACK: Byte := 102
  const S2S_REPLICATE_USER: Byte := 103
  const S2S_ROUTE_MSG: Byte := 104
  const S2S_ROUTE_ROOM_MSG: Byte := 105
  const S2S_ROOM_MEMBER_SYNC: Byte := 106

  const ONE: Text := [49]
  const ZERO: Text := [48]

  function Flag(b: bool): Text {
    if b then ONE else ZERO
  }

  /** The packet server `self` puts on a link for `m`. */
  function Encode(self: int, m: Message): Packet {
    match m
    case Heartbeat => Packet(S2S_HEARTBEAT, ToString(self))
    case HeartbeatAck => Packet(S2S_HEARTBEAT_ACK, ToString(self))
    case ReplicateUser(u, s, b) => Packet(S2S_REPLICATE_USER, Packed([u, ToString(s), Flag(b)]))
    case RoutePrivate(a, r, t) => Packet(S2S_ROUTE_MSG, Packed([a, r, t]))
    case RouteBroadcast(a, t) => Packet(S2S_ROUTE_MSG, Packed([a, t]))
    case RouteRoom(a, r, t) => Packet(S2S_ROUTE_ROOM_MSG, Packed([a, r, t]))
    case RoomSync(r, s, b) => Packet(S2S_ROOM_MEMBER_SYNC, Packed([r, ToString(s), Flag(b)]))
    case Unreadable => Packet(0, [])
  }

  /** What the handlers of the receiving server make of a packet. A packet they drop,
      or that makes `std::stoi` throw, is unreadable. */
  function Decode(p: Packet): Message {
    var fields := Split(p.payload);
    if p.kind == S2S_HEARTBEAT then Heartbeat
    else if p.kind == S2S_HEARTBEAT_ACK then HeartbeatAck
    else if p.kind == S2S_ROUTE_MSG then
      if |fields| == 3 then RoutePrivate(fields[0], fields[1], fields[2])
      else if |fields| == 2 then RouteBroadcast(fields[0], fields[1])
      else Unreadable
    else if p.kind !in {S2S_REPLICATE_USER, S2S_ROUTE_ROOM_MSG, S2S_ROOM_MEMBER_SYNC} || |fields| < 3 then Unreadable
    else if p.kind == S2S_ROUTE_ROOM_MSG then RouteRoom(fields[0], fields[1], fields[2])
    else
      match Stoi(fields[1])
      case None => Unreadable
      case Some(id) =>
        if p.kind == S2S_REPLICATE_USER then ReplicateUser(fields[0], id, fields[2] == ONE)
        else RoomSync(fields[0], id, fields[2] == ONE)
  }

  /** The packet types of servers, by number. */
  lemma MessageTypes(self: int, m: Message)
    ensures !m.Unreadable? ==>
              Encode(self, m).kind ==
              match m
              case Heartbeat => 101
              case HeartbeatAck => 102
              case ReplicateUser(_, _, _) => 103
              case RoutePrivate(_, _, _) => 104
              case RouteBroadcast(_, _) => 104
              case RouteRoom(_, _, _) => 105
              case RoomSync(_, _, _) => 106
    ensures Flag(true) == [49] && Flag(false) == [48]
  {
  }

  lemma PacketTypes(kind: Byte, payload: Text)
    ensures var fields := Split(payload);
            Decode(Packet(kind, payload)) ==
            if kind == 101 then Heartbeat
            else if kind == 102 then HeartbeatAck
            else if kind == 103 && |fields| >= 3 && Stoi(fields[1]).Some? then
              ReplicateUser(fields[0], Stoi(fields[1]).value, fields[2] == [49])
            else if kind == 104 && |fields| == 3 then RoutePrivate(fields[0], fields[1], fields[2])
            else if kind == 104 && |fields| == 2 then RouteBroadcast(fields[0], fields[1])
            else if kind == 105 && |fields| >= 3 then RouteRoom(fields[0], fields[1], fields[2])
            else if kind == 106 && |fields| >= 3 && Stoi(fields[1]).Some? then
              RoomSync(fields[0], Stoi(fields[1]).value, fields[2] == [49])
            else Unreadable
  {
  }

  /** The message as its receiver will read it. */
  function Wire(self: int, m: Message): Message {
    Decode(Encode(self, m))
  }

  /** Names and texts without NUL bytes, ids that are an `int`. */
  predicate Sendable(m: Message) {
    match m
    case ReplicateUser(u, s, _) => NulFree(u) && InIntRange(s)
    case RoutePrivate(a, r, t) => NulFree(a) && NulFree(r) && NulFree(t)
    case RouteBroadcast(a, t) => NulFree(a) && NulFree(t)
    case RouteRoom(a, r, t) => NulFree(a) && NulFree(r) && NulFree(t)
    case RoomSync(r, s, _) => NulFree(r) && InIntRange(s)
    case _ => true
  }

  /** A message is read as it was meant exactly when its fields contain no NUL byte
      and its id fits. */
  lemma WireFaithful(self: int, m: Message)
    ensures Wire(self, m) == m <==> Sendable(m)
  {
    if Sendable(m) {
      SendableArrives(self, m);
    } else if Wire(self, m) == m {
      DecodedSendable(Encode(self, m));
    }
  }

  /** No packet at all is read as a message that could not be sent. */
  lemma DecodedSendable(p: Packet)
    ensures Sendable(Decode(p))
  {
    SplitFieldsNulFree([], p.payload);
    assert AllNulFree(Split(p.payload));
  }

  lemma SendableArrives(self: int, m: Message)
    requires Sendable(m)
    ensures Wire(self, m) == m
  {
    match m
    case ReplicateUser(u, s, b) => IdFields(u, s, b);
    case RoomSync(r, s, b) => IdFields(r, s, b);
    case RoutePrivate(a, r, t) => SplitPacked([a, r, t]);
    case RouteBroadcast(a, t) => SplitPacked([a, t]);
    case RouteRoom(a, r, t) => SplitPacked([a, r, t]);
    case _ =>
  }

  lemma IdFields(name: Text, id: int, b: bool)
    requires NulFree(name) && InIntRange(id)
    ensures Split(Packed([name, ToString(id), Flag(b)])) == [name, ToString(id), Flag(b)]
    ensures Stoi(ToString(id)) == Some(id)
  {
    ToStringNulFree(id);
    StoiToString(id);
    SplitPacked([name, ToString(id), Flag(b)]);
  }

  /** A broadcast text with one NUL byte arrives as a private message: the text after
      the byte, addressed to whoever the text before it names. */
  lemma BroadcastReadAsPrivate(self: int, sender: Text, a: Text, b: Text)
    requires NulFree(sender) && NulFree(a) && NulFree(b)
    ensures Wire(self, RouteBroadcast(sender, a + [NUL] + b)) == RoutePrivate(sender, a, b)
  {
    var two, three := [sender, a + [NUL] + b], [sender, a, b];
    assert two[1..] == [a + [NUL] + b] && three[1..] == [a, b] && [a, b][1..] == [b];
    assert Packed([a + [NUL] + b]) == Packed([a, b]) by {
      assert Packed([a + [NUL] + b]) == a + [NUL] + b + [NUL] + Packed([]);
      assert Packed([b]) == b + [NUL] + Packed([]);
      assert Packed([a, b]) == a + [NUL] + (b + [NUL] + Packed([]));
    }
    SplitPacked(three);
  }
}
