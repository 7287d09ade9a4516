/** What holds in every state of every run of the UDP stream. */
module UdpGuarantees {
  import opened Bytes
  import opened SequenceNumbers
  import opened Congestion
  import opened UdpPackets
  import opened UdpSender
  import opened UdpReceiver
  import opened UdpSystem

  // -- Estimates and budgets ------------------------------------------------

  lemma {:induction false} SendingSpends(tx: Sender, ack: nat, now: nat)
    ensures var o := SendWhileAllowed(Unbounded, tx, ack, now);
            && o.tx.pacer == tx.pacer.(tokens := tx.pacer.tokens - |o.sent| as real)
            && (tx.pacer.tokens >= 0.0 ==> o.tx.pacer.tokens >= 0.0)
            && o.tx.window == tx.window && o.tx.rtt == tx.rtt
    decreases |tx.outgoing| - tx.outgoingConsumed
  {
    if MaySend(tx) {
      SendingSpends(SendOne(Unbounded, tx, now), ack, now);
    }
  }

  lemma FillControlled(t: Tuning, tx: Sender, samples: seq<nat>, ack: nat, now: nat)
    requires Coherent(t) && Controlled(t, tx, samples) && now > 0
    ensures Controlled(t, FillWindow(Unbounded, t, tx, ack, now).tx, samples)
  {
    SendingSpends(Refilled(t, tx, now), ack, now);
    if tx.pacer.lastUs > 0 {
      EarnedNonNegative(Elapsed(now, tx.pacer.lastUs), tx.window, tx.rtt.srtt);
    }
  }

  lemma EstimateIgnoresTimer(t: Tuning, r: Rtt, r': Rtt, samples: seq<nat>)
    requires r.srtt == r'.srtt && r.rttvar == r'.rttvar
    ensures Estimate(t, r, samples).srtt == Estimate(t, r', samples).srtt
    ensures Estimate(t, r, samples).rttvar == Estimate(t, r', samples).rttvar
  {
  }

  lemma AckControlled(t: Tuning, tx: Sender, samples: seq<nat>, ack: nat, d: Digest, own: nat, now: nat)
    requires Coherent(t) && Controlled(t, tx, samples)
    ensures Controlled(t, Respond(t, tx, ack, d, own, now).tx, samples + d.samples)
  {
    var start := Rtt(0, 0, t.initialRtoUs);
    EstimateAppend(t, start, samples, d.samples);
    EstimateIgnoresTimer(t, tx.rtt, Estimate(t, start, samples), d.samples);
    TimerClamped(t, tx.rtt, d.samples);
    WindowBounded(t, tx.window, d.newly);
    WindowBounded(t, Absorb(t, tx, ack, d).window, 0);
  }

  lemma TimeoutControlled(t: Tuning, tx: Sender, samples: seq<nat>, ack: nat, now: nat)
    requires Coherent(t) && Controlled(t, tx, samples)
    ensures Controlled(t, RetransmitTimedOut(t, tx, ack, now).tx, samples)
  {
    WindowBounded(t, tx.window, 0);
    TimerClamped(t, tx.rtt, []);
  }

  lemma ActKeepsControl(t: Tuning, x: Peer, action: Action)
    requires Coherent(t) && Controlled(t, x.end.tx, x.samples)
    ensures var m := EffectOf(Unbounded, t, x, action);
            m.Moved? ==> Controlled(t, m.peer.end.tx, m.peer.samples)
  {
    var tx, own := x.end.tx, x.end.rx.receiveNext;
    if action.Fill? {
      if action.now > 0 { FillControlled(t, tx, x.samples, own, action.now); }
    } else if action.Timeout? {
      TimeoutControlled(t, tx, x.samples, own, action.now);
    } else if action.Receive? {
      var p := action.packet;
      AckControlled(t, tx, x.samples, p.ack, DigestOf(Unbounded, tx.unacked, p.ack, p.ackBits, action.at), own, action.at);
      AcceptSpendsNothing(x.end, ProcessAck(Unbounded, t, tx, p.ack, p.ackBits, own, action.at), p);
    }
  }

  // -- The invariant over runs ----------------------------------------------

  /** The ceiling on the window leaves room in the reorder buffer. */
  predicate Usable(t: Tuning) { Coherent(t) && t.maxCwnd + 1.0 <= MAX_REORDER_PACKETS as real }

  lemma ActKeepsInv(t: Tuning, x: Peer, y: Peer, action: Action, x': Peer, y': Peer)
    requires Usable(t) && Inv(t, System(x, y)) && Acts(Unbounded, t, x, y, action, x', y')
    ensures Inv(t, System(x', y'))
  {
    ActKeepsFlow(t, x, y, action);
    ActKeepsControl(t, x, action);
    EmissionKeeps(t, x', y, EffectOf(Unbounded, t, x, action).sent);
  }

  lemma StepKeepsInv(t: Tuning, s: System, s': System)
    requires Usable(t) && Step(Unbounded, t, s, s')
    ensures Inv(t, s) ==> Inv(t, s')
  {
    if Inv(t, s) {
      if action :| Acts(Unbounded, t, s.left, s.right, action, s'.left, s'.right) {
        ActKeepsInv(t, s.left, s.right, action, s'.left, s'.right);
      } else {
        var action :| Acts(Unbounded, t, s.right, s.left, action, s'.right, s'.left);
        ActKeepsInv(t, s.right, s.left, action, s'.right, s'.left);
      }
    }
  }

  lemma StartInv(t: Tuning, s: System)
    requires Usable(t) && Unused(t, s.left) && Unused(t, s.right)
    ensures Inv(t, s)
  {
    WindowBounded(t, InitialWindow(t), 0);
  }

  lemma RunStepKeepsInv(t: Tuning, run: seq<System>, i: nat)
    requires Usable(t) && IsRun(Unbounded, t, run) && i + 1 < |run|
    ensures Inv(t, run[i]) ==> Inv(t, run[i + 1])
  {
    assert StepAt(Unbounded, t, run, i);
    StepKeepsInv(t, run[i], run[i + 1]);
  }

  lemma {:induction false} RunKeepsInv(t: Tuning, run: seq<System>, i: nat)
    requires Usable(t) && IsRun(Unbounded, t, run) && i < |run|
    ensures Inv(t, run[i])
  {
    if i == 0 {
      StartInv(t, run[0]);
    } else {
      RunKeepsInv(t, run, i - 1);
      RunStepKeepsInv(t, run, i - 1);
    }
  }

  lemma ReachableInv(t: Tuning, s: System)
    requires Usable(t) && Reachable(Unbounded, t, s)
    ensures Inv(t, s)
  {
    var run :| IsRun(Unbounded, t, run) && run[|run| - 1] == s;
    RunKeepsInv(t, run, |run| - 1);
  }

  // -- Main results ---------------------------------------------------------

  /** The default constants are usable. */
  lemma DefaultsUsable()
    ensures Usable(DEFAULT_TUNING)
  {
  }

  lemma FlowPrefix(t: Tuning, x: Peer, y: Peer)
    requires Flow(t, x, y)
    ensures y.read <= x.written
    ensures Flushed(x.end.tx) ==>
              y.read + Unread(y.end.rx) == x.written
    ensures EndOfStream(y.end.rx) ==> y.read == x.written
  {
    var k := y.end.rx.receiveNext;
    JoinSplit(x.log, k);
    if |x.end.tx.unacked| == 0 {
      assert x.log[..k] == x.log;
    }
  }

  /** What one application reads is always a prefix of what the other wrote,
      however the writes and reads were cut up and whatever the network did. */
  lemma ReadsArePrefixOfWrites(t: Tuning, run: seq<System>, i: nat)
    requires Usable(t) && IsRun(Unbounded, t, run) && i < |run|
    ensures run[i].right.read <= run[i].left.written
    ensures run[i].left.read <= run[i].right.written
  {
    RunKeepsInv(t, run, i);
    FlowPrefix(t, run[i].left, run[i].right);
    FlowPrefix(t, run[i].right, run[i].left);
  }

  /** When `flush` returns, every byte written has entered the peer's stream; when
      a reader is told the stream is over, it has read every byte written. */
  lemma FlushMeansDelivered(t: Tuning, run: seq<System>, i: nat)
    requires Usable(t) && IsRun(Unbounded, t, run) && i < |run|
    ensures var x, y := run[i].left, run[i].right;
            Flushed(x.end.tx) ==> y.read + Unread(y.end.rx) == x.written
    ensures EndOfStream(run[i].right.end.rx) ==> run[i].right.read == run[i].left.written
    ensures EndOfStream(run[i].left.end.rx) ==> run[i].left.read == run[i].right.written
  {
    RunKeepsInv(t, run, i);
    FlowPrefix(t, run[i].left, run[i].right);
    FlowPrefix(t, run[i].right, run[i].left);
  }

  /** In every run, a packet the sender has retired was delivered by the peer, and
      one it has marked was delivered or is held. */
  lemma AcknowledgementsAreTrue(t: Tuning, run: seq<System>, i: nat, k: nat)
    requires Usable(t) && IsRun(Unbounded, t, run) && i < |run|
    requires k < run[i].left.end.tx.nextSequence
    ensures var tx, rx := run[i].left.end.tx, run[i].right.end.rx;
            (forall p :: p in tx.unacked ==> p.sequence != k) ==> k < rx.receiveNext
    ensures var tx, rx := run[i].left.end.tx, run[i].right.end.rx;
            forall p :: p in tx.unacked && p.acknowledged ==>
              p.sequence < rx.receiveNext || p.sequence in rx.reorder
  {
    RunKeepsInv(t, run, i);
    var x, rx := run[i].left, run[i].right.end.rx;
    var unacked := x.end.tx.unacked;
    var base := |x.log| - |unacked|;
    if k >= base {
      assert unacked[k - base] in unacked && unacked[k - base].sequence == k;
    }
    forall p | p in unacked && p.acknowledged
      ensures Has(rx, p.sequence)
    {
      var j :| 0 <= j < |unacked| && unacked[j] == p;
    }
  }

  /** The reorder buffer never holds more than the peer's window, so no datagram
      an honest peer can cause to arrive makes a channel fail for overflow. */
  lemma ReorderNeverOverflows(t: Tuning, run: seq<System>, i: nat, action: Action)
    requires Usable(t) && IsRun(Unbounded, t, run) && i < |run|
    ensures |run[i].right.end.rx.reorder| <= |run[i].left.end.tx.unacked|
    ensures |run[i].left.end.tx.unacked| as real < t.maxCwnd + 1.0
    ensures EffectOf(Unbounded, t, run[i].left, action) != Failed(ReorderOverflow)
    ensures EffectOf(Unbounded, t, run[i].right, action) != Failed(ReorderOverflow)
  {
    RunKeepsInv(t, run, i);
    var x, y := run[i].left, run[i].right;
    ReorderBounded(t, x.end.tx, x.log, y.end.rx, y.read);
    ActKeepsFlow(t, x, y, action);
    ActKeepsFlow(t, y, x, action);
  }

  /** Window, timer and smoothed round trip stay in their ranges. */
  lemma ControlsStayInRange(t: Tuning, run: seq<System>, i: nat, low: nat, high: nat)
    requires Usable(t) && IsRun(Unbounded, t, run) && i < |run|
    requires Within(run[i].left.samples, low, high)
    ensures var tx := run[i].left.end.tx;
            t.minCwnd <= tx.window.cwnd <= t.maxCwnd && 0.0 <= tx.window.fraction < 1.0
    ensures t.minRtoUs <= run[i].left.end.tx.rtt.rto <= t.maxRtoUs
    ensures run[i].left.samples != [] ==> low <= run[i].left.end.tx.rtt.srtt <= high
  {
    RunKeepsInv(t, run, i);
    if run[i].left.samples != [] {
      EstimateWithinSamples(t, Rtt(0, 0, t.initialRtoUs), run[i].left.samples, low, high);
    }
  }

  // -- Pacing ---------------------------------------------------------------

  /** Packets released plus tokens in hand, less what was earned. */
  function Balance(x: Peer): real { |x.log| as real + x.end.tx.pacer.tokens - x.earned }

  predicate Started(x: Peer) { x.end.tx.pacer.lastUs != 0 }

  /** Pacing credit: none is created, except one burst when the pacer starts. */
  predicate Thrifty(t: Tuning, x: Peer, x': Peer) {
    && (Started(x) ==> Started(x'))
    && Balance(x') <= Balance(x) + (if !Started(x) && Started(x') then t.maxBurst else 0.0)
  }

  lemma FillThrifty(t: Tuning, x: Peer, now: nat)
    requires Coherent(t) && PacerOk(t, x.end.tx.pacer) && now > 0
    ensures Thrifty(t, x, EffectOf(Unbounded, t, x, Fill(now)).peer)
  {
    SendingSpends(Refilled(t, x.end.tx, now), x.end.rx.receiveNext, now);
  }

  lemma ResponseSpendsNothing(t: Tuning, tx: Sender, ack: nat, d: Digest, own: nat, now: nat)
    ensures Respond(t, tx, ack, d, own, now).tx.pacer == tx.pacer
  {
  }

  lemma AcceptSpendsNothing(e: Endpoint, acked: Sending, p: Packet)
    ensures Accept(Unbounded, e, acked, p).end.tx == acked.tx
  {
  }

  lemma ReceiptSpendsNothing(t: Tuning, e: Endpoint, p: Packet, now: nat)
    ensures ProcessPacket(Unbounded, t, e, p, now).end.tx.pacer == e.tx.pacer
  {
    var acked := ProcessAck(Unbounded, t, e.tx, p.ack, p.ackBits, e.rx.receiveNext, now);
    AcceptSpendsNothing(e, acked, p);
    ResponseSpendsNothing(t, e.tx, p.ack, DigestOf(Unbounded, e.tx.unacked, p.ack, p.ackBits, now), e.rx.receiveNext, now);
  }

  lemma ActThrifty(t: Tuning, x: Peer, action: Action)
    requires Coherent(t) && PacerOk(t, x.end.tx.pacer)
    ensures var m := EffectOf(Unbounded, t, x, action); m.Moved? ==> Thrifty(t, x, m.peer)
  {
    if action.Fill? {
      if action.now > 0 { FillThrifty(t, x, action.now); }
    } else if action.Receive? {
      ReceiptSpendsNothing(t, x.end, action.packet, action.at);
    }
  }

  lemma ThriftyTransitive(t: Tuning, x: Peer, y: Peer, z: Peer)
    requires Thrifty(t, x, y) && Thrifty(t, y, z)
    ensures Thrifty(t, x, z)
  {
  }

  lemma StepThrifty(t: Tuning, run: seq<System>, j: nat)
    requires Usable(t) && IsRun(Unbounded, t, run) && 0 < j < |run|
    ensures Thrifty(t, run[j - 1].left, run[j].left)
  {
    RunKeepsInv(t, run, j - 1);
    var s, s' := run[j - 1], run[j];
    assert StepAt(Unbounded, t, run, j - 1);
    if action :| Acts(Unbounded, t, s.left, s.right, action, s'.left, s'.right) {
      ActThrifty(t, s.left, action);
    }
  }

  lemma {:induction false} RunThrifty(t: Tuning, run: seq<System>, i: nat, j: nat)
    requires Usable(t) && IsRun(Unbounded, t, run) && i <= j < |run|
    ensures Thrifty(t, run[i].left, run[j].left)
    decreases j
  {
    if i < j {
      RunThrifty(t, run, i, j - 1);
      StepThrifty(t, run, j);
      ThriftyTransitive(t, run[i].left, run[j - 1].left, run[j].left);
    }
  }

  /** Between any two moments of a run, first transmissions are at most one burst
      plus what the congestion window authorised in the time between. */
  lemma PacingBound(t: Tuning, run: seq<System>, i: nat, j: nat)
    requires Usable(t) && IsRun(Unbounded, t, run) && i <= j < |run|
    ensures (|run[j].left.log| - |run[i].left.log|) as real
         <= t.maxBurst + (run[j].left.earned - run[i].left.earned)
  {
    RunThrifty(t, run, i, j);
    RunKeepsInv(t, run, i);
    RunKeepsInv(t, run, j);
  }

  // -- Both endpoints alike -------------------------------------------------

  function Mirror(run: seq<System>): (mirrored: seq<System>)
    ensures |mirrored| == |run|
    ensures forall i :: 0 <= i < |run| ==> mirrored[i] == System(run[i].right, run[i].left)
  {
    seq(|run|, i requires 0 <= i < |run| => System(run[i].right, run[i].left))
  }

  /** A run seen from the other endpoint is a run, so what is said of one endpoint holds of both. */
  lemma MirrorIsRun(w: Width, t: Tuning, run: seq<System>)
    requires IsRun(w, t, run)
    ensures IsRun(w, t, Mirror(run))
  {
    hide Acts, Unused;
    forall i | 0 <= i < |run| - 1 ensures StepAt(w, t, Mirror(run), i) {
      assert StepAt(w, t, run, i);
    }
  }
}
