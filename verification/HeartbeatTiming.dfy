/** How long a silent peer keeps its link, and how late answers may be before a live
    peer loses it. A link is set up at time 0 and first looked at on the tick at
    `first`, then every `period`. What is handled at the moment of a tick counts for it. */
module HeartbeatTiming {
  import opened Bytes
  import opened Heartbeats

  function TickAt(first: nat, period: nat, k: nat): nat {
    first + k * period
  }

  /** `heard(t)` is the time of the last sign of life up to `t`. */
  predicate CutAt(heard: nat -> nat, first: nat, period: nat, k: nat) {
    Expired(TickAt(first, period, k), heard(TickAt(first, period, k)))
  }

  lemma {:induction false} TicksMove(first: nat, period: nat, i: nat, j: nat)
    requires i <= j
    ensures TickAt(first, period, j) == TickAt(first, period, i) + (j - i) * period
    ensures TickAt(first, period, i) <= TickAt(first, period, j)
  {
    assert j * period == i * period + (j - i) * period;
    assert 0 <= (j - i) * period;
  }

  /** The loop for one peer: pings until the first tick at which it has been silent too
      long, and no further than `rounds` ticks. */
  method Watch(heard: nat -> nat, first: nat, period: nat, rounds: nat) returns (cut: Option<nat>, pings: seq<nat>)
    ensures |pings| <= rounds && forall k | 0 <= k < |pings| ::
      pings[k] == TickAt(first, period, k) && !CutAt(heard, first, period, k)
    ensures cut.None? ==> |pings| == rounds
    ensures cut.Some? ==> |pings| < rounds && CutAt(heard, first, period, |pings|) &&
                          cut.value == TickAt(first, period, |pings|)
  {
    pings := [];
    cut := None;
    var now := first;
    for k := 0 to rounds
      invariant now == TickAt(first, period, k) && |pings| == k && cut.None?
      invariant forall i | 0 <= i < k :: pings[i] == TickAt(first, period, i) && !CutAt(heard, first, period, i)
    {
      if Expired(now, heard(now)) {
        return Some(now), pings;
      }
      pings := pings + [now];
      TicksMove(first, period, k, k + 1);
      now := now + period;
    }
  }

  // Silent peers.

  /** The first tick at or after `t`. */
  function Next(first: nat, period: nat, t: nat): (k: nat)
    requires 0 < period
    ensures t <= TickAt(first, period, k)
    ensures k > 0 ==> TickAt(first, period, k) < t + period
  {
    if t <= first then 0
    else
      var d := t - first;
      var k := (d + period - 1) / period;
      assert k * period + (d + period - 1) % period == d + period - 1;
      k
  }

  /** A peer of which nothing is handled after `silence` is cut, and before the timeout
      and one more period have passed. */
  lemma SilentPeerIsCut(heard: nat -> nat, first: nat, period: nat, silence: nat) returns (k: nat)
    requires 0 < first <= period
    requires forall t: nat :: heard(t) <= silence
    ensures CutAt(heard, first, period, k)
    ensures TickAt(first, period, k) < silence + TIMEOUT + period
  {
    k := Next(first, period, silence + TIMEOUT);
    var t := TickAt(first, period, k);
    ExpiredAfter(t, heard(t));
    if k == 0 {
      assert t == first;
    }
  }

  /** With ticks every five seconds: within twenty seconds of the last sign of life. */
  lemma CutWithinTwentySeconds(heard: nat -> nat, first: nat, silence: nat) returns (k: nat)
    requires 0 < first <= 5000
    requires forall t: nat :: heard(t) <= silence
    ensures CutAt(heard, first, 5000, k)
    ensures TickAt(first, 5000, k) < silence + 20000
  {
    k := SilentPeerIsCut(heard, first, 5000, silence);
  }

  // Peers that answer.

  /** Every ping is answered, and the answer handled, within `delay`; other packets may
      come in between. */
  ghost predicate Answered(heard: nat -> nat, acks: nat -> nat, first: nat, period: nat, delay: nat) {
    && 0 < first <= period
    && (forall i: nat :: TickAt(first, period, i) <= acks(i) <= TickAt(first, period, i) + delay)
    && (forall t: nat :: heard(t) <= t)
    && (forall t: nat, i: nat | acks(i) <= t :: acks(i) <= heard(t))
  }

  /** No link with answered pings is ever cut. */
  ghost predicate Safe(period: nat, delay: nat) {
    forall heard: nat -> nat, acks: nat -> nat, first: nat | Answered(heard, acks, first, period, delay) ::
      forall k: nat :: !CutAt(heard, first, period, k)
  }

  /** Whole periods that an answer can take. */
  function Periods(period: nat, delay: nat): (c: nat)
    requires 0 < period && 0 < delay
    ensures (c - 1) * period < delay <= c * period && 0 < c
  {
    var c := (delay + period - 1) / period;
    assert c * period + (delay + period - 1) % period == delay + period - 1;
    assert (c - 1) * period == c * period - period;
    c
  }

  /** The silence that a tick can see is at most the delay, rounded up to periods. */
  lemma NeverCut(heard: nat -> nat, acks: nat -> nat, first: nat, period: nat, delay: nat, k: nat)
    requires 0 < period && 0 < delay && Answered(heard, acks, first, period, delay)
    requires Periods(period, delay) * period < TIMEOUT
    ensures !CutAt(heard, first, period, k)
  {
    var t := TickAt(first, period, k);
    ExpiredAfter(t, heard(t));
    if Periods(period, delay) <= k {
      HeardInTime(heard, acks, first, period, delay, k);
    } else {
      EarlyTick(first, period, k, Periods(period, delay));
    }
  }

  lemma HeardInTime(heard: nat -> nat, acks: nat -> nat, first: nat, period: nat, delay: nat, k: nat)
    requires 0 < period && 0 < delay && Answered(heard, acks, first, period, delay)
    requires Periods(period, delay) <= k
    ensures TickAt(first, period, k) <= heard(TickAt(first, period, k)) + Periods(period, delay) * period
  {
    var i := k - Periods(period, delay);
    TicksMove(first, period, i, k);
    assert acks(i) <= TickAt(first, period, k);
  }

  lemma EarlyTick(first: nat, period: nat, k: nat, c: nat)
    requires k < c && first <= period
    ensures TickAt(first, period, k) <= c * period
  {
    TicksMove(0, period, k + 1, c);
    TicksMove(0, period, k, k + 1);
  }

  /** Answers that all take `delay`, on a link set up right after a tick. */
  function LateAck(period: nat, delay: nat, i: nat): nat {
    TickAt(period, period, i) + delay
  }

  function LateHeard(period: nat, delay: nat, t: nat): nat {
    if t < period + delay then 0 else t
  }

  lemma LateIsAnswered(period: nat, delay: nat)
    requires 0 < period
    ensures Answered(t => LateHeard(period, delay, t), i => LateAck(period, delay, i), period, period, delay)
  {
    forall t: nat, i: nat | LateAck(period, delay, i) <= t
      ensures LateAck(period, delay, i) <= LateHeard(period, delay, t)
    {
      TicksMove(period, period, 0, i);
    }
  }

  lemma LateIsCut(period: nat, delay: nat)
    requires 0 < period && 0 < delay && TIMEOUT <= Periods(period, delay) * period
    ensures CutAt(t => LateHeard(period, delay, t), period, period, Periods(period, delay) - 1)
  {
    var c := Periods(period, delay);
    var t := TickAt(period, period, c - 1);
    assert t == c * period;
    assert t < period + delay;
    ExpiredAfter(t, 0);
  }

  /** Answered pings keep every link exactly when the delay, rounded up to whole periods,
      is below the timeout. */
  lemma SafeExactly(period: nat, delay: nat)
    requires 0 < period && 0 < delay
    ensures Safe(period, delay) <==> Periods(period, delay) * period < TIMEOUT
  {
    if Periods(period, delay) * period < TIMEOUT {
      forall heard: nat -> nat, acks: nat -> nat, first: nat, k: nat | Answered(heard, acks, first, period, delay)
        ensures !CutAt(heard, first, period, k)
      {
        NeverCut(heard, acks, first, period, delay, k);
      }
    } else {
      LateIsAnswered(period, delay);
      LateIsCut(period, delay);
    }
  }

  /** With ticks every five seconds: answers may take ten seconds and no longer. */
  lemma TenSecondsExactly(delay: nat)
    requires 0 < delay
    ensures Safe(5000, delay) <==> delay <= 10000
  {
    SafeExactly(5000, delay);
  }
}
