/** Length-prefixed frames: four big-endian length bytes, one type byte, payload.
    The length counts the type byte. */
module Frames {
  import opened Bytes

  datatype Packet = Packet(kind: Byte, payload: Text)

  datatype Parse = Frame(packet: Packet, rest: Text) | Broken

  /** `MAX_PAYLOAD_SIZE`; the reader compares it with type byte plus payload. */
  const MAX_LENGTH: nat := 1024 * 1024

  const TWO_TO_32: nat := 0x1_0000_0000

  function BigEndian(n: nat): (b: Text)
    requires n < TWO_TO_32
    ensures |b| == 4
  {
    [(n / 0x100_0000) as Byte, (n / 0x1_0000 % 256) as Byte, (n / 256 % 256) as Byte, (n % 256) as Byte]
  }

  function ValueOf(b: Text): (n: nat)
    requires |b| == 4
    ensures n < TWO_TO_32
  {
    b[0] as nat * 0x100_0000 + b[1] as nat * 0x1_0000 + b[2] as nat * 256 + b[3] as nat
  }

  /** The sizes for which `4 + totalLen`, computed on 32 bits, does not wrap. */
  predicate Serializable(p: Packet) {
    |p.payload| + 5 < TWO_TO_32
  }

  function FrameOf(p: Packet): Text
    requires Serializable(p)
  {
    BigEndian(1 + |p.payload|) + [p.kind] + p.payload
  }

  /** What the reader accepts at the front of a byte stream that ends where `s` ends. */
  function ParseFrame(s: Text): Parse {
    if |s| < 4 then Broken
    else
      var n := ValueOf(s[..4]);
      if n < 1 || n > MAX_LENGTH || |s| < 4 + n then Broken
      else Frame(Packet(s[4], s[5..4 + n]), s[4 + n..])
  }

  method Serialize(p: Packet) returns (buffer: array<Byte>)
    requires Serializable(p)
    ensures fresh(buffer)
    ensures buffer[..] == FrameOf(p)
  {
    var payloadLen := |p.payload|;
    var totalLen := 1 + payloadLen;
    buffer := new Byte[4 + totalLen];
    var netLen := BigEndian(totalLen);
    for i := 0 to 4
      invariant buffer[..i] == netLen[..i]
    {
      buffer[i] := netLen[i];
    }
    buffer[4] := p.kind;
    assert buffer[..5] == netLen + [p.kind];
    for i := 0 to payloadLen
      invariant buffer[..5] == netLen + [p.kind]
      invariant buffer[5..5 + i] == p.payload[..i]
    {
      buffer[5 + i] := p.payload[i];
    }
    assert buffer[..] == buffer[..5] + buffer[5..5 + payloadLen];
  }

  lemma BigEndianValue(n: nat)
    requires n < TWO_TO_32
    ensures ValueOf(BigEndian(n)) == n
  {
    assert n / 0x1_0000 == n / 0x100_0000 * 256 + n / 0x1_0000 % 256;
    assert n / 256 == n / 0x1_0000 * 256 + n / 256 % 256;
  }

  lemma ValueBigEndian(b: Text)
    requires |b| == 4
    ensures BigEndian(ValueOf(b)) == b
  {
    var n := ValueOf(b);
    assert n / 256 == b[0] as nat * 0x1_0000 + b[1] as nat * 256 + b[2] as nat;
    assert n / 0x1_0000 == b[0] as nat * 256 + b[1] as nat;
    assert n / 0x100_0000 == b[0] as nat;
  }

  /** The bytes of a frame: four with the number of bytes that follow, the highest digit
      to the base of 256 first, then the type, then the payload. */
  lemma FrameBytes(p: Packet)
    requires Serializable(p)
    ensures var f := FrameOf(p);
            |f| == 5 + |p.payload| && f[4] == p.kind && f[5..] == p.payload &&
            16777216 * f[0] as nat + 65536 * f[1] as nat + 256 * f[2] as nat + f[3] as nat == |f| - 4
  {
    var n := 1 + |p.payload|;
    BigEndianValue(n);
    assert FrameOf(p)[5..] == p.payload;
    assert ValueOf(BigEndian(n)) == n;
  }

  /** Frames with a megabyte of payload and more are refused. */
  lemma LargestFrame(p: Packet, rest: Text)
    requires Serializable(p)
    ensures ParseFrame(FrameOf(p) + rest).Frame? <==> |p.payload| <= 1048575
  {
    ParseFrameOf(p, rest);
  }

  /** A frame is read back, ahead of anything, exactly when it is within the limit. */
  lemma ParseFrameOf(p: Packet, rest: Text)
    requires Serializable(p)
    ensures ParseFrame(FrameOf(p) + rest) ==
            if 1 + |p.payload| <= MAX_LENGTH then Frame(p, rest) else Broken
  {
    var n := 1 + |p.payload|;
    var s := FrameOf(p) + rest;
    assert s[..4] == BigEndian(n);
    BigEndianValue(n);
    if n <= MAX_LENGTH {
      assert s[5..4 + n] == p.payload;
      assert s[4 + n..] == rest;
    }
  }

  /** Nothing but the frame of the packet returned is consumed. */
  lemma ParseConsumesFrame(s: Text)
    requires ParseFrame(s).Frame?
    ensures var r := ParseFrame(s);
            Serializable(r.packet) && 1 + |r.packet.payload| <= MAX_LENGTH &&
            s == FrameOf(r.packet) + r.rest
  {
    var n := ValueOf(s[..4]);
    var r := ParseFrame(s);
    ValueBigEndian(s[..4]);
    assert |r.packet.payload| == n - 1;
    assert s == s[..4] + [s[4]] + s[5..4 + n] + s[4 + n..];
  }

  ghost predicate AllWithinLimit(ps: seq<Packet>) {
    forall p <- ps :: 1 + |p.payload| <= MAX_LENGTH
  }

  function Stream(ps: seq<Packet>): Text
    requires AllWithinLimit(ps)
  {
    if ps == [] then [] else FrameOf(ps[0]) + Stream(ps[1..])
  }

  /** The packets a reader gets from a stream, up to the first failure. */
  function ParseAll(s: Text): seq<Packet>
    decreases |s|
  {
    match ParseFrame(s)
    case Frame(p, rest) => [p] + ParseAll(rest)
    case Broken => []
  }

  /** Frames written one after the other are recovered, and a tail that is not a
      frame does not disturb the packets before it. */
  lemma {:induction false} ParseStream(ps: seq<Packet>, tail: Text)
    requires AllWithinLimit(ps)
    ensures ParseAll(Stream(ps) + tail) == ps + ParseAll(tail)
  {
    if ps == [] {
      assert Stream(ps) + tail == tail;
    } else {
      var head, more := ps[0], ps[1..];
      var rest := Stream(more) + tail;
      ParseStream(more, tail);
      calc {
        ParseAll(Stream(ps) + tail);
        { Associative(FrameOf(head), Stream(more), tail); }
        ParseAll(FrameOf(head) + rest);
        { ParseOneMore(head, rest); }
        [head] + ParseAll(rest);
        [head] + (more + ParseAll(tail));
        { Associative([head], more, ParseAll(tail)); }
        [head] + more + ParseAll(tail);
        { assert [head] + more == ps; }
        ps + ParseAll(tail);
      }
    }
  }

  lemma Associative<T>(a: seq<T>, b: seq<T>, c: seq<T>)
    ensures a + b + c == a + (b + c)
  {
  }

  lemma ParseOneMore(p: Packet, rest: Text)
    requires 1 + |p.payload| <= MAX_LENGTH
    ensures ParseAll(FrameOf(p) + rest) == [p] + ParseAll(rest)
  {
    ParseFrameOf(p, rest);
  }

  /** The other direction: whatever was read is what stood at the front of the stream. */
  lemma {:induction false} StreamOfParsed(s: Text)
    ensures AllWithinLimit(ParseAll(s)) && Stream(ParseAll(s)) <= s
    decreases |s|
  {
    match ParseFrame(s)
    case Frame(p, rest) =>
      ParseConsumesFrame(s);
      StreamOfParsed(rest);
      assert ParseAll(s)[1..] == ParseAll(rest);
    case Broken =>
  }

  /** A proper prefix of a frame is never taken for a packet. */
  lemma UnfinishedFrame(p: Packet, n: nat)
    requires Serializable(p) && n < |FrameOf(p)|
    ensures ParseFrame(FrameOf(p)[..n]) == Broken
  {
    var s := FrameOf(p)[..n];
    if n >= 4 {
      assert s[..4] == BigEndian(1 + |p.payload|);
      BigEndianValue(1 + |p.payload|);
    }
  }
}
