/** Threads that call `SendPacket` on one session. The session's lock admits one at a
    time; the socket takes as much of a frame at once as it likes. */
module LockedSend {
  import opened Bytes
  import opened Frames

  /** One call: its packet, the packet's frame, and how much of that the socket has
      taken. */
  datatype Call = Call(thread: nat, packet: Packet, frame: Text, written: nat) {
    predicate Valid() {
      Serializable(packet) && frame == FrameOf(packet) && written <= |frame|
    }

    predicate Whole() {
      written == |frame|
    }

    /** It has not left the beginning of a frame behind. */
    predicate Clean() {
      written == 0 || Whole()
    }

    /** The bytes it has put on the wire. */
    function Part(): Text {
      if written <= |frame| then frame[..written] else []
    }
  }

  datatype Ask = Ask(thread: nat, packet: Packet)

  /** `calls` have returned, in the order in which they held the lock; `holder` holds
      it; `waiting` are blocked on it; `asked` are all calls made so far. */
  datatype Line = Line(
    wire: Text, calls: seq<Call>, holder: Option<Call>, waiting: map<nat, Packet>, asked: seq<Ask>)

  datatype Label =
    | Enter(thread: nat, packet: Packet)
    | Acquire(thread: nat)
    | Write(count: nat)
    | WouldBlock
    | Return
    | Fail

  const IDLE := Line([], [], None, map[], [])

  /** A thread calls again only after its last call has returned. */
  predicate Enabled(l: Line, step: Label) {
    match step
    case Enter(t, p) =>
      Serializable(p) && t !in l.waiting && (l.holder.Some? ==> l.holder.value.thread != t)
    case Acquire(t) => t in l.waiting && Serializable(l.waiting[t]) && l.holder.None?
    case Write(k) => l.holder.Some? && 0 < k <= |l.holder.value.frame| - l.holder.value.written
    case WouldBlock => l.holder.Some? && !l.holder.value.Whole()
    case Return => l.holder.Some? && l.holder.value.Whole()
    case Fail => l.holder.Some? && !l.holder.value.Whole()
  }

  function Step(l: Line, step: Label): Line
    requires Enabled(l, step)
  {
    match step
    case Enter(t, p) => l.(waiting := l.waiting[t := p], asked := l.asked + [Ask(t, p)])
    case Acquire(t) => l.(waiting := l.waiting - {t}, holder := Some(NewCall(t, l.waiting[t])))
    case Write(k) =>
      var c := l.holder.value;
      l.(wire := l.wire + c.frame[c.written..c.written + k], holder := Some(c.(written := c.written + k)))
    case WouldBlock => l
    case Return => l.(calls := l.calls + [l.holder.value], holder := None)
    case Fail => l.(calls := l.calls + [l.holder.value], holder := None)
  }

  function NewCall(t: nat, p: Packet): (c: Call)
    requires Serializable(p)
    ensures c.Valid() && c.Part() == []
  {
    Call(t, p, FrameOf(p), 0)
  }

  predicate Run(l: Line, steps: seq<Label>)
    decreases |steps|
  {
    steps == [] || (Enabled(l, steps[0]) && Run(Step(l, steps[0]), steps[1..]))
  }

  function End(l: Line, steps: seq<Label>): Line
    requires Run(l, steps)
    decreases |steps|
  {
    if steps == [] then l else End(Step(l, steps[0]), steps[1..])
  }

  // What is on the wire.

  function Parts(cs: seq<Call>): Text {
    if cs == [] then [] else Parts(cs[..|cs| - 1]) + cs[|cs| - 1].Part()
  }

  /** The calls that have had the lock. */
  function Begun(l: Line): seq<Call> {
    if l.holder.Some? then l.calls + [l.holder.value] else l.calls
  }

  /** Bytes of different calls never mix. */
  ghost predicate Unmixed(l: Line) {
    && l.wire == Parts(Begun(l))
    && (forall c <- l.calls :: c.Valid())
    && (l.holder.Some? ==> l.holder.value.Valid())
    && (forall t <- l.waiting :: Serializable(l.waiting[t]))
  }

  lemma PartsOneMore(cs: seq<Call>, c: Call)
    ensures Parts(cs + [c]) == Parts(cs) + c.Part()
  {
    assert (cs + [c])[..|cs|] == cs;
  }

  lemma StepUnmixed(l: Line, step: Label)
    requires Unmixed(l) && Enabled(l, step)
    ensures Unmixed(Step(l, step))
  {
    match step
    case Write(k) => WriteUnmixed(l, k);
    case Acquire(t) => AcquireUnmixed(l, t);
    case _ =>
  }

  lemma AcquireUnmixed(l: Line, t: nat)
    requires Unmixed(l) && Enabled(l, Acquire(t))
    ensures Unmixed(Step(l, Acquire(t)))
  {
    PartsOneMore(l.calls, NewCall(t, l.waiting[t]));
    assert Parts(l.calls) + [] == Parts(l.calls);
  }

  lemma WriteUnmixed(l: Line, k: nat)
    requires Unmixed(l) && Enabled(l, Write(k))
    ensures Unmixed(Step(l, Write(k)))
  {
    WriteParts(l.calls, l.holder.value, k);
  }

  lemma WriteParts(cs: seq<Call>, c: Call, k: nat)
    requires c.written + k <= |c.frame|
    ensures Parts(cs + [c]) + c.frame[c.written..c.written + k] == Parts(cs + [c.(written := c.written + k)])
  {
    PartsOneMore(cs, c);
    PartsOneMore(cs, c.(written := c.written + k));
    TakeMore(Parts(cs), c.frame, c.written, k);
  }

  lemma TakeMore(before: Text, frame: Text, written: nat, k: nat)
    requires written + k <= |frame|
    ensures before + frame[..written] + frame[written..written + k] == before + frame[..written + k]
  {
  }

  lemma {:induction false} RunUnmixed(l: Line, steps: seq<Label>)
    requires Unmixed(l) && Run(l, steps)
    ensures Unmixed(End(l, steps))
    decreases |steps|
  {
    if steps != [] {
      StepUnmixed(l, steps[0]);
      RunUnmixed(Step(l, steps[0]), steps[1..]);
    }
  }

  // Whole frames.

  function Packets(cs: seq<Call>): (ps: seq<Packet>)
    ensures |ps| == |cs|
  {
    seq(|cs|, i requires 0 <= i < |cs| => cs[i].packet)
  }

  lemma {:induction false} WholeParts(cs: seq<Call>)
    requires AllWithinLimit(Packets(cs)) && forall c <- cs :: c.Valid() && c.Whole()
    ensures Parts(cs) == Stream(Packets(cs))
  {
    if cs != [] {
      var most, last := cs[..|cs| - 1], cs[|cs| - 1];
      assert Packets(cs) == Packets(most) + [last.packet];
      forall p | p in Packets(most) ensures p in Packets(cs) {
      }
      WholeParts(most);
      StreamOneMore(Packets(most), last.packet);
      assert last in cs && last.Part() == last.frame;
    }
  }

  lemma {:induction false} StreamOneMore(ps: seq<Packet>, p: Packet)
    requires AllWithinLimit(ps + [p]) && AllWithinLimit(ps) && 1 + |p.payload| <= MAX_LENGTH
    ensures Stream(ps + [p]) == Stream(ps) + FrameOf(p)
  {
    if ps == [] {
      assert [p][1..] == [];
      assert ps + [p] == [p];
    } else {
      assert (ps + [p])[1..] == ps[1..] + [p];
      StreamOneMore(ps[1..], p);
      Associative(FrameOf(ps[0]), Stream(ps[1..]), FrameOf(p));
    }
  }

  /** The calls whose frames went out whole. */
  function Kept(cs: seq<Call>): seq<Call> {
    if cs == [] then []
    else
      var last, before := cs[|cs| - 1], Kept(cs[..|cs| - 1]);
      if last.Whole() then before + [last] else before
  }

  lemma {:induction false} KeptAreWhole(cs: seq<Call>)
    requires forall c <- cs :: c.Valid()
    ensures forall c <- Kept(cs) :: c.Valid() && c.Whole()
  {
    if cs != [] {
      KeptAreWhole(cs[..|cs| - 1]);
      assert cs[|cs| - 1] in cs;
    }
  }

  /** Frames of whole calls are never more than what is on the wire, and all of it only
      when no call has left the beginning of a frame. */
  lemma {:induction false} KeptParts(cs: seq<Call>)
    requires forall c <- cs :: c.Valid()
    ensures |Parts(Kept(cs))| <= |Parts(cs)|
    ensures AllClean(cs) ==> Parts(Kept(cs)) == Parts(cs)
    ensures !AllClean(cs) ==> |Parts(Kept(cs))| < |Parts(cs)|
  {
    if cs != [] {
      var most, last := cs[..|cs| - 1], cs[|cs| - 1];
      assert last in cs && most + [last] == cs;
      KeptParts(most);
      CleanOneMore(most, last);
      PartsOneMore(most, last);
      if last.Whole() {
        PartsOneMore(Kept(most), last);
      } else if last.written == 0 {
        assert Parts(most) + [] == Parts(most);
      }
    }
  }

  ghost predicate AllClean(cs: seq<Call>) {
    forall c <- cs :: c.Clean()
  }

  lemma CleanOneMore(cs: seq<Call>, c: Call)
    ensures AllClean(cs + [c]) <==> AllClean(cs) && c.Clean()
  {
    assert c in cs + [c];
    forall d | d in cs ensures d in cs + [c] {
    }
  }

  /** The part of the holder's frame that is on the wire. */
  function HeldPart(l: Line): Text {
    if l.holder.Some? then l.holder.value.Part() else []
  }

  /** Whatever the threads and the socket do: the wire is the whole frames in the order
      of the lock, then the beginning of the holder's frame, if and only if every call
      that has returned wrote all of its frame or none of it. */
  lemma WholeFramesExactly(steps: seq<Label>)
    requires Run(IDLE, steps)
    ensures var l := End(IDLE, steps);
            l.wire == Parts(Kept(l.calls)) + HeldPart(l) <==> forall c <- l.calls :: c.written == 0 || c.Whole()
  {
    RunUnmixed(IDLE, steps);
    var l := End(IDLE, steps);
    KeptParts(l.calls);
    WireOfCalls(l);
    assert AllClean(l.calls) <==> forall c <- l.calls :: c.written == 0 || c.Whole();
  }

  lemma WireOfCalls(l: Line)
    requires Unmixed(l)
    ensures l.wire == Parts(l.calls) + HeldPart(l)
  {
    if l.holder.Some? {
      PartsOneMore(l.calls, l.holder.value);
    } else {
      assert Parts(l.calls) + [] == Parts(l.calls);
    }
  }

  /** In that case the client reads exactly the packets whose frames are complete, the
      holder's among them as soon as its last byte is out. */
  lemma WholeFrames(steps: seq<Label>)
    requires Run(IDLE, steps)
    requires var l := End(IDLE, steps); AllWithinLimit(Packets(Kept(Begun(l))))
    requires forall c <- End(IDLE, steps).calls :: c.written == 0 || c.Whole()
    ensures var l := End(IDLE, steps);
            AllWithinLimit(Packets(Kept(l.calls))) && l.wire == Stream(Packets(Kept(l.calls))) + HeldPart(l)
    ensures ParseAll(End(IDLE, steps).wire) == Packets(Kept(Begun(End(IDLE, steps))))
  {
    RunUnmixed(IDLE, steps);
    WholeFramesOf(End(IDLE, steps));
  }

  lemma WholeFramesOf(l: Line)
    requires Unmixed(l) && AllWithinLimit(Packets(Kept(Begun(l)))) && forall c <- l.calls :: c.written == 0 || c.Whole()
    ensures AllWithinLimit(Packets(Kept(l.calls))) && l.wire == Stream(Packets(Kept(l.calls))) + HeldPart(l)
    ensures ParseAll(l.wire) == Packets(Kept(Begun(l)))
  {
    assert AllClean(l.calls);
    WireOfCalls(l);
    if l.holder.Some? {
      KeptOneMore(l.calls, l.holder.value);
    }
    KeptParts(l.calls);
    KeptAreWhole(l.calls);
    WholeParts(Kept(l.calls));
    ReadFramesOf(l);
  }

  lemma ReadFramesOf(l: Line)
    requires Unmixed(l) && AllWithinLimit(Packets(Kept(Begun(l)))) && AllClean(l.calls)
    ensures ParseAll(l.wire) == Packets(Kept(Begun(l)))
  {
    WireOfCalls(l);
    match l.holder
    case None =>
      ReadClean(l.calls, []);
      assert Parts(l.calls) + [] == Parts(l.calls) && Packets(Kept(l.calls)) + ParseAll([]) == Packets(Kept(l.calls));
    case Some(c) =>
      KeptOneMore(l.calls, c);
      ReadClean(l.calls, c.Part());
      ReadPart(c);
      if c.Whole() {
        assert Packets([c]) == [c.packet];
      } else {
        assert Packets(Kept(l.calls)) + [] == Packets(Kept(l.calls));
      }
  }

  lemma KeptOneMore(cs: seq<Call>, c: Call)
    ensures Kept(cs + [c]) == if c.Whole() then Kept(cs) + [c] else Kept(cs)
    ensures AllWithinLimit(Packets(Kept(cs + [c]))) ==> AllWithinLimit(Packets(Kept(cs)))
    ensures AllWithinLimit(Packets(Kept(cs + [c]))) && c.Whole() ==> 1 + |c.packet.payload| <= MAX_LENGTH
    ensures Packets(Kept(cs + [c])) == if c.Whole() then Packets(Kept(cs)) + Packets([c]) else Packets(Kept(cs))
  {
    assert (cs + [c])[..|cs|] == cs;
    if c.Whole() {
      PacketsJoin(Kept(cs), [c]);
      assert Packets([c])[0] == c.packet;
      assert c.packet in Packets([c]);
    }
  }

  lemma PacketsJoin(a: seq<Call>, b: seq<Call>)
    ensures Packets(a + b) == Packets(a) + Packets(b)
    ensures AllWithinLimit(Packets(a + b)) <==> AllWithinLimit(Packets(a)) && AllWithinLimit(Packets(b))
  {
    assert forall p <- Packets(a) + Packets(b) :: p in Packets(a) || p in Packets(b);
  }

  /** What stands behind the parts of clean calls does not disturb their packets. */
  lemma ReadClean(cs: seq<Call>, tail: Text)
    requires (forall c <- cs :: c.Valid()) && AllClean(cs) && AllWithinLimit(Packets(Kept(cs)))
    ensures ParseAll(Parts(cs) + tail) == Packets(Kept(cs)) + ParseAll(tail)
  {
    KeptParts(cs);
    KeptAreWhole(cs);
    WholeParts(Kept(cs));
    ParseStream(Packets(Kept(cs)), tail);
  }

  lemma ReadPart(c: Call)
    requires c.Valid() && (c.Whole() ==> 1 + |c.packet.payload| <= MAX_LENGTH)
    ensures ParseAll(c.Part()) == if c.Whole() then [c.packet] else []
  {
    if c.Whole() {
      assert c.Part() == c.frame;
      ReadOne(c.packet);
    } else {
      UnfinishedFrame(c.packet, c.written);
    }
  }

  lemma ReadOne(p: Packet)
    requires 1 + |p.payload| <= MAX_LENGTH
    ensures ParseAll(FrameOf(p)) == [p]
  {
    ParseOneMore(p, []);
    assert FrameOf(p) + [] == FrameOf(p);
    assert ParseAll([]) == [];
  }

  // A frame that stays unfinished.

  /** One thread's call, in which the socket takes `k` bytes and then fails or is done. */
  function OneCall(t: nat, p: Packet, k: nat, done: bool): seq<Label> {
    [Enter(t, p), Acquire(t), Write(k), if done then Return else Fail]
  }

  lemma OneCallRuns(l: Line, t: nat, p: Packet, k: nat, done: bool)
    requires Serializable(p) && 0 < k <= |FrameOf(p)| && (done <==> k == |FrameOf(p)|)
    requires l.holder.None? && t !in l.waiting
    ensures Run(l, OneCall(t, p, k, done))
    ensures End(l, OneCall(t, p, k, done)) ==
            Line(l.wire + FrameOf(p)[..k], l.calls + [Call(t, p, FrameOf(p), k)], None,
                 l.waiting, l.asked + [Ask(t, p)])
  {
    var l1 := Step(l, Enter(t, p));
    var l2 := Step(l1, Acquire(t));
    var l3 := Step(l2, Write(k));
    var last := if done then Return else Fail;
    assert l2.waiting == l.waiting;
    EndOneMore(l3, last, []);
    EndOneMore(l2, Write(k), [last]);
    EndOneMore(l1, Acquire(t), [Write(k)] + [last]);
    EndOneMore(l, Enter(t, p), [Acquire(t)] + ([Write(k)] + [last]));
    assert OneCall(t, p, k, done) == [Enter(t, p)] + ([Acquire(t)] + ([Write(k)] + [last]));
  }

  lemma EndOneMore(l: Line, step: Label, more: seq<Label>)
    requires Enabled(l, step) && Run(Step(l, step), more)
    ensures Run(l, [step] + more) && End(l, [step] + more) == End(Step(l, step), more)
  {
    assert ([step] + more)[1..] == more;
  }

  /** The least frame, of a packet without payload. */
  lemma LeastFrame(kind: Byte)
    ensures FrameOf(Packet(kind, [])) == [0, 0, 0, 1, kind]
  {
    assert BigEndian(1) == [0, 0, 0, 1];
  }

  /** Behind the beginning of any frame, a least frame is not read as what it is. */
  lemma LostInRemains(p: Packet, w: nat, kind: Byte)
    requires Serializable(p) && 0 < w < |FrameOf(p)| && kind != 0
    ensures Packet(kind, []) !in ParseAll(FrameOf(p)[..w] + [0, 0, 0, 1, kind])
  {
    if w < 4 {
      LostInLength(FrameOf(p)[..w], kind);
    } else {
      LostInPayload(p, w, kind);
    }
  }

  /** The reader takes the next frame's first bytes for the end of the length. */
  lemma LostInLength(start: Text, kind: Byte)
    requires 0 < |start| < 4
    ensures ParseAll(start + [0, 0, 0, 1, kind]) == []
  {
    var tail := start + [0, 0, 0, 1, kind];
    assert tail[3] == 0;
    assert tail[..4][3] == 0;
  }

  /** The reader takes the next frame for the missing part of the payload. */
  lemma LostInPayload(p: Packet, w: nat, kind: Byte)
    requires Serializable(p) && 4 <= w < |FrameOf(p)| && kind != 0
    ensures Packet(kind, []) !in ParseAll(FrameOf(p)[..w] + [0, 0, 0, 1, kind])
  {
    var n := 1 + |p.payload|;
    var tail := FrameOf(p)[..w] + [0, 0, 0, 1, kind];
    assert tail[..4] == BigEndian(n);
    BigEndianValue(n);
    if n <= MAX_LENGTH && 4 + n <= |tail| {
      ShortTail(tail[4 + n..]);
      var first := Packet(tail[4], tail[5..4 + n]);
      assert ParseAll(tail) == [first] + ParseAll(tail[4 + n..]);
      assert |first.payload| == n - 1;
    }
  }

  /** Four bytes or fewer are no frame. */
  lemma ShortTail(s: Text)
    requires |s| <= 4
    ensures ParseAll(s) == []
  {
  }

  /** After a call that stopped inside its frame the session stays in use, and the next
      call can succeed in vain: its packet goes out whole and is not read. */
  lemma BrokenCallLosesTheNext(steps: seq<Label>, before: seq<Call>, c: Call, t: nat, kind: Byte)
    requires Run(IDLE, steps) && kind != 0
    requires var l := End(IDLE, steps);
             l.holder.None? && t !in l.waiting && l.calls == before + [c]
    requires AllClean(before) && AllWithinLimit(Packets(Kept(before))) && 0 < c.written < |c.frame|
    ensures var l, q := End(IDLE, steps), Packet(kind, []);
            Run(l, OneCall(t, q, 5, true)) &&
            var d := End(l, OneCall(t, q, 5, true));
            d.calls == l.calls + [Call(t, q, FrameOf(q), 5)] && |FrameOf(q)| == 5 &&
            Packets(Kept(before)) <= ParseAll(d.wire) &&
            q !in ParseAll(d.wire)[|Kept(before)|..]
  {
    RunUnmixed(IDLE, steps);
    var l, q := End(IDLE, steps), Packet(kind, []);
    LeastFrame(kind);
    OneCallRuns(l, t, q, 5, true);
    var d := End(l, OneCall(t, q, 5, true));
    assert c in l.calls && forall b <- before :: b in l.calls;
    PartsOneMore(before, c);
    assert d.wire == Parts(before) + (c.frame[..c.written] + [0, 0, 0, 1, kind]);
    ReadClean(before, c.frame[..c.written] + [0, 0, 0, 1, kind]);
    LostInRemains(c.packet, c.written, kind);
  }

  // The order of one thread.

  function AsksOf(asks: seq<Ask>, t: nat): seq<Packet> {
    if asks == [] then []
    else
      var last, before := asks[|asks| - 1], AsksOf(asks[..|asks| - 1], t);
      if last.thread == t then before + [last.packet] else before
  }

  function CallsOf(cs: seq<Call>, t: nat): seq<Packet> {
    if cs == [] then []
    else
      var last, before := cs[|cs| - 1], CallsOf(cs[..|cs| - 1], t);
      if last.thread == t then before + [last.packet] else before
  }

  /** What the lock has let through for a thread, and then the packet that waits. */
  function Sent(l: Line, t: nat): seq<Packet> {
    var through := CallsOf(Begun(l), t);
    if t in l.waiting then through + [l.waiting[t]] else through
  }

  /** What a thread asked for is what it gets, in that order. */
  ghost predicate InOrder(l: Line, t: nat) {
    && AsksOf(l.asked, t) == Sent(l, t)
    && (t in l.waiting ==> l.holder.Some? ==> l.holder.value.thread != t)
  }

  lemma CallsOneMore(cs: seq<Call>, c: Call, t: nat)
    ensures CallsOf(cs + [c], t) == if c.thread == t then CallsOf(cs, t) + [c.packet] else CallsOf(cs, t)
  {
    assert (cs + [c])[..|cs|] == cs;
  }

  lemma AsksOneMore(asks: seq<Ask>, a: Ask, t: nat)
    ensures AsksOf(asks + [a], t) == if a.thread == t then AsksOf(asks, t) + [a.packet] else AsksOf(asks, t)
  {
    assert (asks + [a])[..|asks|] == asks;
  }

  lemma StepInOrder(l: Line, step: Label, t: nat)
    requires InOrder(l, t) && Enabled(l, step)
    ensures InOrder(Step(l, step), t)
  {
    match step
    case Enter(u, p) => AsksOneMore(l.asked, Ask(u, p), t);
    case Acquire(u) => AcquireInOrder(l, u, t);
    case Write(k) => WriteInOrder(l, k, t);
    case _ =>
  }

  lemma AcquireInOrder(l: Line, u: nat, t: nat)
    requires InOrder(l, t) && Enabled(l, Acquire(u))
    ensures InOrder(Step(l, Acquire(u)), t)
  {
    CallsOneMore(l.calls, NewCall(u, l.waiting[u]), t);
  }

  lemma WriteInOrder(l: Line, k: nat, t: nat)
    requires InOrder(l, t) && Enabled(l, Write(k))
    ensures InOrder(Step(l, Write(k)), t)
  {
    var c := l.holder.value;
    CallsOneMore(l.calls, c, t);
    CallsOneMore(l.calls, c.(written := c.written + k), t);
  }

  lemma {:induction false} RunInOrder(l: Line, steps: seq<Label>, t: nat)
    requires InOrder(l, t) && Run(l, steps)
    ensures InOrder(End(l, steps), t)
    decreases |steps|
  {
    if steps != [] {
      StepInOrder(l, steps[0], t);
      RunInOrder(Step(l, steps[0]), steps[1..], t);
    }
  }

  /** Every thread's packets go through in the order in which it sent them, failures
      or not. */
  lemma ThreadOrder(steps: seq<Label>, t: nat)
    requires Run(IDLE, steps)
    ensures var l := End(IDLE, steps);
            AsksOf(l.asked, t) == Sent(l, t)
  {
    RunInOrder(IDLE, steps, t);
  }
}
