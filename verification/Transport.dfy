/** Sockets with partial reads and writes. The operating system is a script: what
    successive `recv` and `send` calls will answer. Every way of splitting a byte
    stream and every finite pattern of would-block answers is some script. */
module Transport {
  import opened Bytes
  import opened Frames

  /** Answers to `recv`: bytes, would-block, or end of stream and errors. */
  datatype Arrival = Data(bytes: Text) | NotYet | Closed

  /** Answers to `send`: how much is taken, would-block, or an error. */
  datatype Grant = Take(n: nat) | Busy | Refused

  datatype Answer = Moved(n: nat) | WouldBlock | Failed

  /** The bytes that arrive before the stream ends. */
  function Incoming(inbox: seq<Arrival>): Text {
    if inbox == [] then []
    else match inbox[0]
      case Data(bytes) => if bytes == [] then [] else bytes + Incoming(inbox[1..])
      case NotYet => Incoming(inbox[1..])
      case Closed => []
  }

  /** How many of `n` bytes get through before the first error; a script that has
      run out takes everything. */
  function Accepted(grants: seq<Grant>, n: nat): (k: nat)
    ensures k <= n
  {
    if n == 0 || grants == [] then n
    else match grants[0]
      case Take(m) => if m == 0 then 0 else if n <= m then n else m + Accepted(grants[1..], n - m)
      case Busy => Accepted(grants[1..], n)
      case Refused => 0
  }

  /** What is left of the script after sending `n` bytes, or after the first error. */
  function Rest(grants: seq<Grant>, n: nat): seq<Grant> {
    if n == 0 || grants == [] then grants
    else match grants[0]
      case Take(m) => if m == 0 then grants else if n <= m then grants[1..] else Rest(grants[1..], n - m)
      case Busy => Rest(grants[1..], n)
      case Refused => grants
  }

  class TcpSocket {
    var inbox: seq<Arrival>
    var grants: seq<Grant>
    var sent: Text

    constructor (inbox: seq<Arrival>, grants: seq<Grant>)
      ensures this.inbox == inbox && this.grants == grants && sent == []
    {
      this.inbox, this.grants, sent := inbox, grants, [];
    }

    /** One `recv` of at most `len` bytes to position `at` of `buf`. */
    method Recv(buf: array<Byte>, at: nat, len: nat) returns (a: Answer)
      requires 0 < len && at + len <= buf.Length
      modifies this`inbox, buf
      ensures a.Moved? ==> 0 < a.n <= len &&
                           a.n <= |Incoming(old(inbox))| &&
                           buf[..] == old(buf[..at]) + Incoming(old(inbox))[..a.n] + old(buf[at + a.n..]) &&
                           Incoming(inbox) == Incoming(old(inbox))[a.n..]
      ensures a.WouldBlock? ==> buf[..] == old(buf[..]) && old(inbox) != [] && inbox == old(inbox)[1..] &&
                                Incoming(inbox) == Incoming(old(inbox))
      ensures a.Failed? ==> buf[..] == old(buf[..]) && Incoming(old(inbox)) == []
    {
      if inbox == [] {
        return Failed;
      }
      match inbox[0]
      case NotYet =>
        inbox := inbox[1..];
        return WouldBlock;
      case Closed =>
        return Failed;
      case Data(bytes) =>
        if bytes == [] {
          return Failed;
        }
        var n := if |bytes| <= len then |bytes| else len;
        forall i | 0 <= i < n {
          buf[at + i] := bytes[i];
        }
        inbox := if n < |bytes| then [Data(bytes[n..])] + inbox[1..] else inbox[1..];
        return Moved(n);
    }

    /** One `send` of the `len` bytes at position `at` of `buf`. */
    method Send(buf: array<Byte>, at: nat, len: nat) returns (a: Answer)
      requires 0 < len && at + len <= buf.Length
      modifies this`grants, this`sent
      ensures a.Moved? ==> 0 < a.n <= len && sent == old(sent) + buf[at..at + a.n] &&
                           Accepted(old(grants), len) == a.n + Accepted(grants, len - a.n) &&
                           Rest(old(grants), len) == Rest(grants, len - a.n)
      ensures a.WouldBlock? ==> sent == old(sent) && old(grants) != [] && grants == old(grants)[1..] &&
                                Accepted(old(grants), len) == Accepted(grants, len) &&
                                Rest(old(grants), len) == Rest(grants, len)
      ensures a.Failed? ==> sent == old(sent) && Accepted(old(grants), len) == 0 &&
                            grants == old(grants) == Rest(old(grants), len)
    {
      if grants == [] {
        sent := sent + buf[at..at + len];
        return Moved(len);
      }
      match grants[0]
      case Busy =>
        grants := grants[1..];
        return WouldBlock;
      case Refused =>
        return Failed;
      case Take(m) =>
        if m == 0 {
          return Failed;
        }
        var n := if len <= m then len else m;
        grants := grants[1..];
        sent := sent + buf[at..at + n];
        return Moved(n);
    }

    /** Sends `buf[..len]`: succeeds exactly when no error comes first, and what
        went out is a prefix either way. */
    method SendAll(buf: array<Byte>, len: nat) returns (ok: bool)
      requires len <= buf.Length
      modifies this`grants, this`sent
      ensures ok <==> Accepted(old(grants), len) == len
      ensures sent == old(sent) + buf[..Accepted(old(grants), len)]
      ensures grants == Rest(old(grants), len)
    {
      var ptr: nat, bytesLeft: nat := 0, len;
      while bytesLeft > 0
        invariant ptr + bytesLeft == len
        invariant sent == old(sent) + buf[..ptr]
        invariant Accepted(old(grants), len) == ptr + Accepted(grants, bytesLeft)
        invariant Rest(old(grants), len) == Rest(grants, bytesLeft)
        decreases bytesLeft, |grants|
      {
        var a := Send(buf, ptr, bytesLeft);
        match a
        case Moved(n) =>
          assert buf[..ptr] + buf[ptr..ptr + n] == buf[..ptr + n];
          ptr := ptr + n;
          bytesLeft := bytesLeft - n;
        case WouldBlock =>
        case Failed =>
          return false;
      }
      return true;
    }

    /** Fills `buf[..len]` from the stream, exactly when that many bytes arrive. */
    method RecvAll(buf: array<Byte>, len: nat) returns (ok: bool)
      requires len <= buf.Length
      modifies this`inbox, buf
      ensures ok <==> len <= |Incoming(old(inbox))|
      ensures ok ==> buf[..len] == Incoming(old(inbox))[..len] && buf[len..] == old(buf[len..])
      ensures ok ==> Incoming(inbox) == Incoming(old(inbox))[len..]
    {
      ghost var stream := Incoming(inbox);
      var ptr: nat, bytesLeft: nat := 0, len;
      while bytesLeft > 0
        invariant ptr + bytesLeft == len && ptr <= |stream|
        invariant buf[..ptr] == stream[..ptr]
        invariant buf[len..] == old(buf[len..])
        invariant Incoming(inbox) == stream[ptr..]
        decreases bytesLeft, |inbox|
      {
        var a := Recv(buf, ptr, bytesLeft);
        match a
        case Moved(n) =>
          assert stream[ptr..][..n] == stream[ptr..ptr + n];
          ptr := ptr + n;
          bytesLeft := bytesLeft - n;
        case WouldBlock =>
        case Failed =>
          return false;
      }
      return true;
    }
  }

  /** Reads one packet: succeeds exactly when a whole frame within the limit is
      coming, and takes nothing else from the stream. */
  method ReadPacket(socket: TcpSocket) returns (ok: bool, out: Packet)
    modifies socket`inbox
    ensures var r := ParseFrame(Incoming(old(socket.inbox)));
            if r.Frame? then ok && out == r.packet && Incoming(socket.inbox) == r.rest else !ok
  {
    ghost var s := Incoming(socket.inbox);
    out := Packet(0, []);
    ok := false;
    var netLen := new Byte[4];
    var got := socket.RecvAll(netLen, 4);
    if !got { return; }
    var totalLen := ValueOf(netLen[..]);
    if totalLen < 1 || totalLen > MAX_LENGTH { return; }
    var rawType := new Byte[1];
    got := socket.RecvAll(rawType, 1);
    if !got { return; }
    assert s[4..][1..] == s[5..];
    var payloadLen := totalLen - 1;
    if payloadLen > 0 {
      var payloadBuf := new Byte[payloadLen];
      got := socket.RecvAll(payloadBuf, payloadLen);
      if !got { return; }
      out := Packet(rawType[0], payloadBuf[..]);
      assert payloadBuf[..] == payloadBuf[..payloadLen];
    } else {
      out := Packet(rawType[0], []);
    }
    ok := true;
  }

  /** The receive loops of client and server: packet after packet until the first
      failure. */
  method ReceiveLoop(socket: TcpSocket) returns (packets: seq<Packet>)
    modifies socket`inbox
    ensures packets == ParseAll(Incoming(old(socket.inbox)))
  {
    ghost var all := ParseAll(Incoming(socket.inbox));
    packets := [];
    var running := true;
    while running
      invariant running ==> all == packets + ParseAll(Incoming(socket.inbox))
      invariant !running ==> all == packets
      decreases running, |Incoming(socket.inbox)|
    {
      ghost var s := Incoming(socket.inbox);
      var ok, packet := ReadPacket(socket);
      if ok {
        ParseAllMore(s, packet, Incoming(socket.inbox));
        Associative(packets, [packet], ParseAll(Incoming(socket.inbox)));
        packets := packets + [packet];
      } else {
        assert ParseAll(s) == [];
        running := false;
      }
    }
  }

  lemma ParseAllMore(s: Text, p: Packet, rest: Text)
    requires ParseFrame(s) == Frame(p, rest)
    ensures |rest| < |s| && ParseAll(s) == [p] + ParseAll(rest)
  {
  }

  /** `ClientSession::SendPacket` once it holds the session's lock. */
  method SendPacket(socket: TcpSocket, p: Packet) returns (ok: bool)
    requires Serializable(p)
    modifies socket`grants, socket`sent
    ensures ok <==> Accepted(old(socket.grants), |FrameOf(p)|) == |FrameOf(p)|
    ensures socket.sent == old(socket.sent) + FrameOf(p)[..Accepted(old(socket.grants), |FrameOf(p)|)]
    ensures socket.grants == Rest(old(socket.grants), |FrameOf(p)|)
  {
    var buffer := Serialize(p);
    assert buffer.Length == |buffer[..]|;
    ok := socket.SendAll(buffer, buffer.Length);
    assert forall k | 0 <= k <= buffer.Length :: buffer[..k] == buffer[..][..k];
  }

  /** What sending packets one after the other puts on the wire, up to the first failure. */
  function Written(grants: seq<Grant>, ps: seq<Packet>): Text
    requires AllWithinLimit(ps)
    decreases |ps|
  {
    if ps == [] then []
    else
      var frame := FrameOf(ps[0]);
      var k := Accepted(grants, |frame|);
      frame[..k] + if k == |frame| then Written(Rest(grants, |frame|), ps[1..]) else []
  }

  /** How many of the packets get through whole. */
  function Through(grants: seq<Grant>, ps: seq<Packet>): (n: nat)
    requires AllWithinLimit(ps)
    ensures n <= |ps|
    decreases |ps|
  {
    if ps == [] || Accepted(grants, |FrameOf(ps[0])|) < |FrameOf(ps[0])| then 0
    else 1 + Through(Rest(grants, |FrameOf(ps[0])|), ps[1..])
  }

  /** A caller of `SendPacket` that stops when it is told of a failure. */
  method SendInTurn(socket: TcpSocket, ps: seq<Packet>) returns (n: nat)
    requires AllWithinLimit(ps)
    modifies socket`grants, socket`sent
    ensures socket.sent == old(socket.sent) + Written(old(socket.grants), ps)
    ensures n == Through(old(socket.grants), ps)
  {
    n := 0;
    while n < |ps|
      invariant n <= |ps|
      invariant socket.sent + Written(socket.grants, ps[n..]) == old(socket.sent) + Written(old(socket.grants), ps)
      invariant n + Through(socket.grants, ps[n..]) == Through(old(socket.grants), ps)
    {
      OneSent(socket.sent, socket.grants, ps, n);
      var ok := SendPacket(socket, ps[n]);
      if !ok {
        return;
      }
      n := n + 1;
    }
    assert socket.sent + Written(socket.grants, []) == socket.sent;
  }

  /** One packet of the row: taken whole, or the last one that leaves a trace. */
  lemma OneSent(sent: Text, grants: seq<Grant>, ps: seq<Packet>, n: nat)
    requires AllWithinLimit(ps) && n < |ps|
    ensures AllWithinLimit(ps[n..]) && AllWithinLimit(ps[n + 1..]) && 1 + |ps[n].payload| <= MAX_LENGTH
    ensures var frame := FrameOf(ps[n]);
            var k := Accepted(grants, |frame|);
            if k == |frame| then
              sent + Written(grants, ps[n..]) == sent + frame[..k] + Written(Rest(grants, |frame|), ps[n + 1..]) &&
              Through(grants, ps[n..]) == 1 + Through(Rest(grants, |frame|), ps[n + 1..])
            else sent + Written(grants, ps[n..]) == sent + frame[..k] && Through(grants, ps[n..]) == 0
  {
    assert ps[n] in ps && ps[n..][0] == ps[n] && ps[n..][1..] == ps[n + 1..];
    var frame := FrameOf(ps[n]);
    var k := Accepted(grants, |frame|);
    if k == |frame| {
      Associative(sent, frame[..k], Written(Rest(grants, |frame|), ps[n + 1..]));
    } else {
      assert frame[..k] + [] == frame[..k];
    }
  }

  // What the reader's socket sees of a text.

  /** The bytes of all arrivals in a row. */
  function Arrived(inbox: seq<Arrival>): Text {
    if inbox == [] then []
    else (if inbox[0].Data? then inbox[0].bytes else []) + Arrived(inbox[1..])
  }

  /** Some cutting of `text` into arrivals, with would-blocks anywhere in between. */
  ghost predicate CutInto(text: Text, inbox: seq<Arrival>) {
    && Arrived(inbox) == text
    && forall a <- inbox :: a == NotYet || (a.Data? && a.bytes != [])
  }

  /** To find nothing for now is not the end: a would-block makes no difference anywhere. */
  lemma {:induction false} IncomingSkipsNotYet(a: seq<Arrival>, b: seq<Arrival>)
    ensures Incoming(a + [NotYet] + b) == Incoming(a + b)
  {
    if a == [] {
      assert ([NotYet] + b)[1..] == b;
      assert a + [NotYet] + b == [NotYet] + b && a + b == b;
    } else {
      IncomingSkipsNotYet(a[1..], b);
      assert (a + [NotYet] + b)[1..] == a[1..] + [NotYet] + b && (a + b)[1..] == a[1..] + b;
    }
  }

  /** The end of the stream is: nothing behind it arrives. */
  lemma {:induction false} IncomingEndsAtClosed(a: seq<Arrival>, end: Arrival, b: seq<Arrival>)
    requires end == Closed || end == Data([])
    ensures Incoming(a + [end] + b) == Incoming(a)
  {
    if a == [] {
      assert a + [end] + b == [end] + b;
    } else {
      IncomingEndsAtClosed(a[1..], end, b);
      assert (a + [end] + b)[1..] == a[1..] + [end] + b;
    }
  }

  /** Until the stream ends everything that arrives is read. */
  lemma {:induction false} IncomingIsArrived(inbox: seq<Arrival>)
    requires forall a <- inbox :: a == NotYet || (a.Data? && a.bytes != [])
    ensures Incoming(inbox) == Arrived(inbox)
  {
    if inbox != [] {
      assert inbox[0] in inbox;
      IncomingIsArrived(inbox[1..]);
    }
  }

  /** Whatever the sender's socket takes at a time and wherever it fails, and however the
      network cuts what went out into arrivals: the receive loop returns the packets
      whose frames were taken whole, and no others. */
  lemma FramesSurviveTheNetwork(grants: seq<Grant>, ps: seq<Packet>, inbox: seq<Arrival>, after: seq<Arrival>)
    requires AllWithinLimit(ps) && CutInto(Written(grants, ps), inbox)
    ensures ParseAll(Incoming(inbox)) == ps[..Through(grants, ps)]
    ensures ParseAll(Incoming(inbox + [Closed] + after)) == ps[..Through(grants, ps)]
  {
    IncomingIsArrived(inbox);
    IncomingEndsAtClosed(inbox, Closed, after);
    ReadWritten(grants, ps);
  }

  lemma {:induction false} ReadWritten(grants: seq<Grant>, ps: seq<Packet>)
    requires AllWithinLimit(ps)
    ensures ParseAll(Written(grants, ps)) == ps[..Through(grants, ps)]
    decreases |ps|
  {
    if ps != [] {
      var p := ps[0];
      assert p in ps;
      var k := Accepted(grants, |FrameOf(p)|);
      if k == |FrameOf(p)| {
        var rest := Rest(grants, |FrameOf(p)|);
        ReadWritten(rest, ps[1..]);
        TakenWhole(grants, ps);
        ParseOneMore(p, Written(rest, ps[1..]));
        HeadAndMore(ps, Through(rest, ps[1..]));
      } else {
        UnfinishedFrame(p, k);
        OneSent([], grants, ps, 0);
      }
    }
  }

  lemma TakenWhole(grants: seq<Grant>, ps: seq<Packet>)
    requires AllWithinLimit(ps) && ps != [] && 1 + |ps[0].payload| <= MAX_LENGTH
    requires Accepted(grants, |FrameOf(ps[0])|) == |FrameOf(ps[0])|
    ensures AllWithinLimit(ps[1..])
    ensures Written(grants, ps) == FrameOf(ps[0]) + Written(Rest(grants, |FrameOf(ps[0])|), ps[1..])
  {
    var frame := FrameOf(ps[0]);
    assert frame[..|frame|] == frame;
  }

  lemma HeadAndMore<T>(s: seq<T>, m: nat)
    requires s != [] && m < |s|
    ensures s[..1 + m] == [s[0]] + s[1..][..m]
  {
  }

  /** What a script without errors takes, send by send. */
  function Total(grants: seq<Grant>): nat {
    if grants == [] then 0 else (if grants[0].Take? then grants[0].n else 0) + Total(grants[1..])
  }

  /** Up to the first error as much is taken as the script says, and no more; nothing
      behind the error is. */
  lemma {:induction false} TakenUpToError(a: seq<Grant>, error: Grant, b: seq<Grant>, n: nat)
    requires forall g <- a :: g == Busy || (g.Take? && g.n > 0)
    requires error == Refused || error == Take(0)
    ensures Accepted(a + [error] + b, n) == if n <= Total(a) then n else Total(a)
  {
    if a == [] {
      assert a + [error] + b == [error] + b;
    } else {
      assert a[0] in a;
      assert (a + [error] + b)[0] == a[0] && (a + [error] + b)[1..] == a[1..] + [error] + b;
      match a[0]
      case Take(m) => if m < n { TakenUpToError(a[1..], error, b, n - m); }
      case Busy => TakenUpToError(a[1..], error, b, n);
    }
  }

  /** Without errors everything gets through. */
  lemma {:induction false} NothingRefused(grants: seq<Grant>, ps: seq<Packet>)
    requires AllWithinLimit(ps) && forall g <- grants :: g == Busy || (g.Take? && g.n > 0)
    ensures Through(grants, ps) == |ps|
    decreases |ps|
  {
    if ps != [] {
      FrameTaken(grants, |FrameOf(ps[0])|);
      NothingRefused(Rest(grants, |FrameOf(ps[0])|), ps[1..]);
    }
  }

  lemma {:induction false} FrameTaken(grants: seq<Grant>, n: nat)
    requires forall g <- grants :: g == Busy || (g.Take? && g.n > 0)
    ensures Accepted(grants, n) == n
    ensures forall g <- Rest(grants, n) :: g in grants
    decreases |grants|
  {
    if n != 0 && grants != [] {
      assert grants[0] in grants;
      match grants[0]
      case Take(m) => if m < n { FrameTaken(grants[1..], n - m); }
      case Busy => FrameTaken(grants[1..], n);
    }
  }

  /** A sender that fails inside a frame costs the receiver that frame and no other. */
  lemma CutStream(ps: seq<Packet>, last: Packet, n: nat)
    requires AllWithinLimit(ps) && 1 + |last.payload| <= MAX_LENGTH
    requires n < |FrameOf(last)|
    ensures ParseAll(Stream(ps) + FrameOf(last)[..n]) == ps
  {
    UnfinishedFrame(last, n);
    ParseStream(ps, FrameOf(last)[..n]);
    assert ps + [] == ps;
  }
}
