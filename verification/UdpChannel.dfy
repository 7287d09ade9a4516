/** The channel object: fields updated in place, loops as the transport runs
    them, each proved to compute what the protocol definition says. */
module UdpChannel {
  import opened Bytes
  import opened SequenceNumbers
  import opened Congestion
  import opened UdpPackets
  import Header = UdpHeader
  import Tx = UdpSender
  import Rx = UdpReceiver
  import opened UdpSystem
  import P = UdpPump

  class ReliableUdpChannel {
    const tuning: Tuning

    /** The send-side fields and the receive-side fields. */
    var tx: Tx.Sender
    var rx: Rx.Receiver
    var ackPending: bool
    var finAcknowledged: bool

    /** Datagrams handed to the socket, oldest first. */
    var wire: seq<Packet>

    ghost function State(): Endpoint
      reads this
    {
      Endpoint(tx, rx, ackPending, finAcknowledged)
    }

    constructor (tuning: Tuning)
      ensures this.tuning == tuning && wire == []
      ensures State() == Endpoint(Tx.InitialSender(tuning), Rx.INITIAL_RECEIVER, false, false)
    {
      this.tuning := tuning;
      tx := Tx.Sender([], 0, [], 0, 0, Window(tuning.initialCwnd, tuning.maxCwnd, 0.0), Rtt(0, 0, tuning.initialRtoUs),
                      Pacer(0.0, 0), 0, false);
      rx := Rx.Receiver(0, map[], [], 0, false);
      ackPending, finAcknowledged, wire := false, false, [];
    }

    // -- Sending ------------------------------------------------------------

    method RefillPacingTokens(now: nat)
      modifies this`tx
      ensures tx == Tx.Refilled(tuning, old(tx), now)
    {
      if tx.pacer.lastUs == 0 {
        tx := tx.(pacer := Pacer(tuning.maxBurst, now));
        return;
      }
      var elapsed := Elapsed(now, tx.pacer.lastUs);
      var rttUs := if tx.rtt.srtt > 0 then tx.rtt.srtt as real else ASSUMED_RTT_US as real;
      var packetsPerUs := tx.window.cwnd / rttUs;
      var tokens := tx.pacer.tokens + elapsed as real * packetsPerUs;
      if tokens > tuning.maxBurst {
        tokens := tuning.maxBurst;
      }
      tx := tx.(pacer := Pacer(tokens, now));
    }

    method FillWindow(now: nat)
      modifies this`tx, this`wire
      ensures var o := Tx.FillWindow(Wrapping, tuning, old(tx), rx.receiveNext, now);
              tx == o.tx && wire == old(wire) + o.sent
    {
      hide Tx.Refilled;
      RefillPacingTokens(now);
      ghost var goal := Tx.SendWhileAllowed(Wrapping, tx, rx.receiveNext, now);
      while tx.outgoingConsumed < |tx.outgoing| && (|tx.unacked| as real) < tx.window.cwnd && tx.pacer.tokens >= 1.0
        invariant var rest := Tx.SendWhileAllowed(Wrapping, tx, rx.receiveNext, now);
                  goal.tx == rest.tx && old(wire) + goal.sent == wire + rest.sent
        decreases |tx.outgoing| - tx.outgoingConsumed
      {
        ghost var queued := wire;
        SendNext(now);
        ghost var rest := Tx.SendWhileAllowed(Wrapping, tx, rx.receiveNext, now).sent;
        assert queued + (wire[|queued|..] + rest) == wire + rest;
      }
    }

    /** One packet cut from the outgoing buffer. */
    method SendNext(now: nat)
      requires Tx.MaySend(tx)
      modifies this`tx, this`wire
      ensures tx == Tx.SendOne(Wrapping, old(tx), now)
      ensures wire == old(wire) + [Tx.DataPacket(Tx.NextPacket(old(tx), now), rx.receiveNext)]
    {
      tx := tx.(pacer := tx.pacer.(tokens := tx.pacer.tokens - 1.0));
      var remaining := |tx.outgoing| - tx.outgoingConsumed;
      var length := if remaining < MAX_PAYLOAD then remaining else MAX_PAYLOAD;
      var payload := tx.outgoing[tx.outgoingConsumed..tx.outgoingConsumed + length];
      var packet := Tx.SentPacket(tx.nextSequence, payload, now, 1, false);
      tx := tx.(nextSequence := Reduce(Wrapping, tx.nextSequence + 1),
                outgoingConsumed := tx.outgoingConsumed + length,
                unacked := tx.unacked + [packet]);
      wire := wire + [Tx.DataPacket(packet, rx.receiveNext)];
    }

    method RetransmitTimedOut(now: nat) returns (peerSilent: bool)
      modifies this`tx, this`wire
      ensures var o := Tx.RetransmitTimedOut(tuning, old(tx), rx.receiveNext, now);
              tx == o.tx && wire == old(wire) + o.sent && peerSilent == o.peerSilent
    {
      if |tx.unacked| == 0 || Elapsed(now, tx.unacked[0].sentUs) < tx.rtt.rto {
        return false;
      }
      tx := tx.(consecutiveTimeouts := tx.consecutiveTimeouts + 1);
      if tx.consecutiveTimeouts > tuning.maxTimeouts {
        return true;
      }
      var ssthresh := Max(tuning.minCwnd, tx.window.cwnd / 2.0);
      tx := tx.(window := Window(tuning.minCwnd, ssthresh, 0.0));
      tx := tx.(rtt := tx.rtt.(rto := if tx.rtt.rto * 2 > tuning.maxRtoUs then tuning.maxRtoUs else tx.rtt.rto * 2));
      tx := tx.(pacer := tx.pacer.(tokens := 0.0));
      var oldest := tx.unacked[0].(sentUs := now, transmissions := tx.unacked[0].transmissions + 1);
      tx := tx.(unacked := tx.unacked[0 := oldest]);
      wire := wire + [Tx.DataPacket(oldest, rx.receiveNext)];
      return false;
    }

    // -- Acknowledgements ---------------------------------------------------

    method UpdateRtt(sample: nat)
      modifies this`tx
      ensures tx == old(tx).(rtt := Update(tuning, old(tx).rtt, sample))
    {
      var rtt := tx.rtt;
      var srtt, rttvar;
      if rtt.srtt == 0 {
        srtt, rttvar := sample, sample / 2;
      } else {
        var difference := if sample > rtt.srtt then sample - rtt.srtt else rtt.srtt - sample;
        rttvar := (3 * rtt.rttvar + difference) / 4;
        srtt := (7 * rtt.srtt + sample) / 8;
      }
      tx := tx.(rtt := Rtt(srtt, rttvar, ClampRto(tuning, srtt + 4 * rttvar)));
    }

    /** Retire everything below the cumulative acknowledgement. */
    method RetireCovered(ack: nat, now: nat) returns (retired: nat)
      modifies this`tx
      ensures retired == Tx.Covered(Wrapping, old(tx).unacked, ack)
      ensures tx == old(tx).(unacked := old(tx).unacked[retired..],
                             rtt := Estimate(tuning, old(tx).rtt, Tx.Samples(old(tx).unacked[..retired], now)))
    {
      hide Update, Estimate, Tx.Covered, Tx.Samples, Distance, Elapsed;
      retired := 0;
      ghost var all, start := tx.unacked, tx;
      assert all[..0] == [] && all[0..] == all;
      assert tx == start.(rtt := Estimate(tuning, start.rtt, Tx.Samples(all[..0], now))) by {
        NothingRetired(all, start.rtt, now);
      }
      while |tx.unacked| > 0 && Distance(Wrapping, tx.unacked[0].sequence, ack) < 0
        invariant retired <= |all|
        invariant retired + Tx.Covered(Wrapping, tx.unacked, ack) == Tx.Covered(Wrapping, all, ack)
        invariant tx == start.(unacked := all[retired..],
                               rtt := Estimate(tuning, start.rtt, Tx.Samples(all[..retired], now)))
        decreases |tx.unacked|
      {
        var front := tx.unacked[0];
        ghost var samples := Tx.Samples(all[..retired], now);
        Tx.CoveredFirst(Wrapping, tx.unacked, ack);
        Tx.SamplesNext(all, retired, now);
        if front.transmissions == 1 {
          EstimateNext(tuning, start.rtt, samples, Elapsed(now, front.sentUs));
          UpdateRtt(Elapsed(now, front.sentUs));
        } else {
          assert samples + [] == samples;
        }
        tx := tx.(unacked := tx.unacked[1..]);
        assert tx.unacked == all[retired + 1..];
        retired := retired + 1;
      }
      if |tx.unacked| > 0 {
        Tx.CoveredFirst(Wrapping, tx.unacked, ack);
      } else {
        NothingCovered(ack);
      }
    }

    lemma NothingRetired(all: seq<Tx.SentPacket>, rtt: Rtt, now: nat)
      ensures Estimate(tuning, rtt, Tx.Samples(all[..0], now)) == rtt
    {
    }

    lemma NothingCovered(ack: nat)
      ensures Tx.Covered(Wrapping, [], ack) == 0
    {
    }

    /** Mark what the bitmap reports. */
    method MarkReported(ack: nat, bits: seq<bool>) returns (newly: nat, beyond: nat)
      requires |bits| == 64
      modifies this`tx
      ensures tx == old(tx).(unacked := Tx.MarkAll(Wrapping, old(tx).unacked, ack, bits))
      ensures newly == Tx.CountNew(Wrapping, old(tx).unacked, ack, bits)
      ensures beyond == Tx.CountReported(Wrapping, old(tx).unacked, ack, bits)
    {
      newly, beyond := 0, 0;
      var unacked := tx.unacked;
      ghost var left := unacked;
      var i := 0;
      assert left[..0] == [];
      hide Tx.Reported, Tx.Mark;
      while i < |unacked|
        invariant i <= |unacked| == |left| && tx == old(tx)
        invariant forall j :: 0 <= j < i ==> unacked[j] == Tx.Mark(Wrapping, left[j], ack, bits)
        invariant forall j :: i <= j < |left| ==> unacked[j] == left[j]
        invariant newly == Tx.CountNew(Wrapping, left[..i], ack, bits)
        invariant beyond == Tx.CountReported(Wrapping, left[..i], ack, bits)
      {
        hide Tx.CountNew, Tx.CountReported;
        Tx.CountsNext(Wrapping, left, i, ack, bits);
        var packet, reported := MarkOne(unacked[i], ack, bits);
        if reported {
          if !unacked[i].acknowledged {
            newly := newly + 1;
          }
          beyond := beyond + 1;
        }
        unacked := unacked[i := packet];
        i := i + 1;
      }
      assert left[..i] == left;
      assert unacked == Tx.MarkAll(Wrapping, left, ack, bits);
      tx := tx.(unacked := unacked);
    }

    method MarkOne(p: Tx.SentPacket, ack: nat, bits: seq<bool>) returns (marked: Tx.SentPacket, reported: bool)
      requires |bits| == 64
      ensures reported == Tx.Reported(Wrapping, p, ack, bits) && marked == Tx.Mark(Wrapping, p, ack, bits)
    {
      marked := p;
      var offset := Distance(Wrapping, p.sequence, ack);
      reported := 1 <= offset <= 64 && bits[offset - 1];
      if reported {
        marked := p.(acknowledged := true);
      }
    }

    method GrowWindow(newly: nat)
      modifies this`tx
      ensures tx == old(tx).(window := Acknowledged(tuning, old(tx).window, newly),
                             consecutiveTimeouts := if newly > 0 then 0 else old(tx).consecutiveTimeouts)
    {
      if newly > 0 {
        tx := tx.(consecutiveTimeouts := 0);
      }
      var window := tx.window;
      var i := 0;
      while i < newly
        invariant i <= newly && window == Grow(tx.window, i)
      {
        if window.cwnd < window.ssthresh {
          window := window.(cwnd := window.cwnd + 1.0);
        } else {
          var fraction := window.fraction + 1.0 / window.cwnd;
          if fraction >= 1.0 {
            window := window.(cwnd := window.cwnd + 1.0, fraction := fraction - 1.0);
          } else {
            window := window.(fraction := fraction);
          }
        }
        i := i + 1;
      }
      if window.cwnd > tuning.maxCwnd {
        window := window.(cwnd := tuning.maxCwnd);
      }
      tx := tx.(window := window);
    }

    method FastRetransmit(beyond: nat, now: nat)
      modifies this`tx, this`wire
      ensures var o := Tx.FastRetransmit(tuning, old(tx), beyond, rx.receiveNext, now);
              tx == o.tx && wire == old(wire) + o.sent
    {
      if beyond >= tuning.fastRetransmitThreshold && |tx.unacked| > 0 {
        var missing := tx.unacked[0];
        if !missing.acknowledged && Elapsed(now, missing.sentUs) > tx.rtt.srtt / 2 {
          var half := Max(tuning.minCwnd, tx.window.cwnd / 2.0);
          missing := missing.(sentUs := now, transmissions := missing.transmissions + 1);
          tx := tx.(window := Window(half, half, 0.0), unacked := tx.unacked[0 := missing]);
          wire := wire + [Tx.DataPacket(missing, rx.receiveNext)];
        }
      }
    }

    method ProcessAck(ack: nat, bits: seq<bool>, now: nat)
      requires |bits| == 64
      modifies this`tx, this`wire
      ensures var o := Tx.ProcessAck(Wrapping, tuning, old(tx), ack, bits, rx.receiveNext, now);
              tx == o.tx && wire == old(wire) + o.sent
    {
      hide Tx.Covered, Tx.Samples, Tx.MarkAll, Tx.CountNew, Tx.CountReported, Tx.FastRetransmit, Acknowledged, Estimate;
      var retired := RetireCovered(ack, now);
      tx := tx.(sendBase := ack);
      var newly, beyond := MarkReported(ack, bits);
      GrowWindow(retired + newly);
      FastRetransmit(beyond, now);
    }

    // -- Receiving ----------------------------------------------------------

    method SendControl(kind: Kind)
      modifies this`wire
      ensures wire == old(wire) + [ControlPacket(kind, rx.receiveNext)]
    {
      wire := wire + [Packet(kind, 0, rx.receiveNext, NoBits(), [])];
    }

    method ProcessPacket(data: seq<byte>, now: nat) returns (failure: Option<Failure>)
      modifies this
      ensures var o := P.ReceiveOne(tuning, old(State()), P.Arrival(data, now));
              State() == o.end && wire == old(wire) + o.sent && failure == o.failure
    {
      var parsed := Header.Parse(data);
      if parsed.None? {
        return None;
      }
      var header := parsed.value;
      ProcessAck(header.ack, header.ackBits, now);
      ghost var acked := Tx.ProcessAck(Wrapping, tuning, old(tx), header.ack, header.ackBits, old(rx).receiveNext, now);
      failure := AcceptPacket(header, old(State()), acked, old(wire));
    }

    method AcceptPacket(header: Packet, ghost before: Endpoint, ghost acked: Tx.Sending, ghost queued: seq<Packet>)
      returns (failure: Option<Failure>)
      requires State() == before.(tx := acked.tx) && wire == queued + acked.sent
      modifies this`rx, this`ackPending, this`finAcknowledged, this`wire
      ensures var o := Accept(Wrapping, before, acked, header);
              State() == o.end && wire == queued + o.sent && failure == o.failure
    {
      failure := None;
      match header.kind
      case Data =>
        var distance := Distance(Wrapping, header.sequence, rx.receiveNext);
        if distance < 0 {
          ackPending := true;
          return;
        }
        if |rx.reorder| >= Rx.MAX_REORDER_PACKETS {
          return Some(ReorderOverflow);
        }
        if header.sequence !in rx.reorder {
          rx := rx.(reorder := rx.reorder[header.sequence := header.payload]);
        }
        ackPending := true;
      case Fin =>
        rx := rx.(peerFinished := true);
        SendControl(FinAck);
      case FinAck =>
        finAcknowledged := true;
      case _ =>
    }

    method DeliverInOrder()
      modifies this`rx
      ensures rx == Rx.DeliverInOrder(Wrapping, old(rx))
    {
      ghost var goal := Rx.DeliverWhileAllowed(Wrapping, rx);
      while |rx.delivered| - rx.deliveredConsumed < Rx.MAX_DELIVERED_BACKLOG && rx.receiveNext in rx.reorder
        invariant Rx.DeliverWhileAllowed(Wrapping, rx) == goal
        decreases |rx.reorder|
      {
        ghost var before := rx;
        rx := rx.(delivered := rx.delivered + rx.reorder[rx.receiveNext],
                  reorder := rx.reorder - {rx.receiveNext},
                  receiveNext := Reduce(Wrapping, rx.receiveNext + 1));
        assert rx == Rx.DeliverOne(Wrapping, before);
      }
      if 0 < rx.deliveredConsumed <= |rx.delivered| && rx.deliveredConsumed >= |rx.delivered| / 2 {
        rx := rx.(delivered := rx.delivered[rx.deliveredConsumed..], deliveredConsumed := 0);
      }
    }

    method SendAck()
      modifies this`wire
      ensures wire == old(wire) + [Rx.AckPacket(Wrapping, rx)]
    {
      var bits: seq<bool> := NoBits();
      var keys := rx.reorder.Keys;
      while keys != {}
        invariant |bits| == 64 && keys <= rx.reorder.Keys
        invariant forall k :: 0 <= k < 64 ==>
                    (bits[k] <==> exists q | q in rx.reorder.Keys - keys :: Distance(Wrapping, q, rx.receiveNext) == k + 1)
        decreases |keys|
      {
        var key :| key in keys;
        var offset := Distance(Wrapping, key, rx.receiveNext);
        ghost var seen := rx.reorder.Keys - keys;
        if 1 <= offset <= 64 {
          bits := bits[offset - 1 := true];
        }
        keys := keys - {key};
        assert rx.reorder.Keys - keys == seen + {key};
      }
      assert rx.reorder.Keys - keys == rx.reorder.Keys;
      assert bits == Rx.AckBits(Wrapping, rx);
      wire := wire + [Packet(Ack, 0, rx.receiveNext, bits, [])];
    }

    // -- The engine and the blocking calls ----------------------------------

    /** One turn; a failure stops it where it happens. */
    method Pump(r: P.Round) returns (failure: Option<Failure>)
      modifies this
      ensures var o := P.Pump(tuning, old(State()), r);
              State() == o.end && wire == old(wire) + o.sent && failure == o.failure
    {
      failure := SendPhases(r);
      if failure.Some? {
        return;
      }
      failure := ReceiveBatch(r, old(State()), old(wire));
      if failure.Some? {
        return;
      }
      DeliverAndAck(r, old(State()), old(wire));
    }

    /** What the phases done so far have made of `e`. */
    ghost predicate Done(e: Endpoint, phases: seq<P.Phase>, queued: seq<Packet>)
      reads this
    {
      var o := P.RunPhases(tuning, e, phases);
      State() == o.end && wire == queued + o.sent && o.failure == None
    }

    ghost predicate Stopped(e: Endpoint, r: P.Round, queued: seq<Packet>, failure: Option<Failure>)
      reads this
    {
      var o := P.Pump(tuning, e, r);
      State() == o.end && wire == queued + o.sent && failure == o.failure
    }

    method SendPhases(r: P.Round) returns (failure: Option<Failure>)
      modifies this
      ensures failure == None ==> Done(old(State()), P.SendPhases(r), old(wire))
      ensures failure.Some? ==> Stopped(old(State()), r, old(wire), failure)
    {
      hide P.RunPhases;
      P.SendHalf(tuning, State(), r);
      P.NeverSilent(Tx.Refilled(tuning, Tx.RetransmitTimedOut(tuning, tx, rx.receiveNext, r.nowUs).tx, r.fillUs), rx.receiveNext, r.fillUs);
      var silent := RetransmitTimedOut(r.nowUs);
      if silent {
        return Some(PeerSilent);
      }
      FillWindow(r.fillUs);
      failure := None;
    }

    method ReceiveBatch(r: P.Round, ghost e: Endpoint, ghost queued: seq<Packet>) returns (failure: Option<Failure>)
      requires Done(e, P.SendPhases(r), queued)
      modifies this
      ensures failure == None ==> Done(e, P.SendPhases(r) + P.ReceivePhases(r.arrivals), queued)
      ensures failure.Some? ==> Stopped(e, r, queued, failure)
    {
      hide P.DoPhase, P.RunPhases;
      failure := None;
      var i := 0;
      ghost var start, phases := P.SendPhases(r), P.ReceivePhases(r.arrivals);
      assert start + phases[..0] == start;
      while i < |r.arrivals|
        invariant i <= |r.arrivals|
        invariant failure == None && Done(e, start + phases[..i], queued)
      {
        ghost var so := start + phases[..i];
        assert start + phases[..i + 1] == so + [phases[i]];
        failure := ReceiveNext(r.arrivals[i], e, so, queued);
        if failure.Some? {
          P.BrokenBy(tuning, e, r, i);
          return;
        }
        i := i + 1;
      }
      assert phases[..i] == phases;
    }

    method ReceiveNext(a: P.Arrival, ghost e: Endpoint, ghost so: seq<P.Phase>, ghost queued: seq<Packet>)
      returns (failure: Option<Failure>)
      requires Done(e, so, queued)
      modifies this
      ensures var o := P.RunPhases(tuning, e, so + [P.ReceivePhase(a)]);
              State() == o.end && wire == queued + o.sent && failure == o.failure
    {
      hide P.ReceiveOne, P.RunPhases;
      P.RunOneMore(tuning, e, so, P.ReceivePhase(a));
      failure := ProcessPacket(a.bytes, a.atUs);
    }

    method DeliverAndAck(r: P.Round, ghost e: Endpoint, ghost queued: seq<Packet>)
      requires Done(e, P.SendPhases(r) + P.ReceivePhases(r.arrivals), queued)
      modifies this
      ensures Stopped(e, r, queued, None)
    {
      hide P.RunPhases;
      ghost var so := P.SendPhases(r) + P.ReceivePhases(r.arrivals);
      P.RunOneMore(tuning, e, so, P.DeliverPhase);
      DeliverInOrder();
      P.RunOneMore(tuning, e, so + [P.DeliverPhase], P.AckPhase);
      assert P.PhasesOf(r) == so + [P.DeliverPhase] + [P.AckPhase];
      if ackPending {
        SendAck();
        ackPending := false;
      }
    }

    /** Returns once every byte is on the wire, or when the schedule runs out. */
    method WriteBytes(data: seq<byte>, rounds: seq<P.Round>) returns (status: P.Status)
      modifies this
      ensures var p := P.WriteLoop(tuning, old(State()).(tx := Tx.Queue(old(tx), data)), rounds);
              State() == p.end && wire == old(wire) + p.sent && status == p.status
    {
      tx := tx.(outgoing := tx.outgoing + data);
      ghost var goal := P.WriteLoop(tuning, State(), rounds);
      var i := 0;
      assert rounds[0..] == rounds;
      while tx.outgoingConsumed < |tx.outgoing|
        invariant i <= |rounds|
        invariant Leads(goal, P.WriteLoop(tuning, State(), rounds[i..]), old(wire))
        decreases |rounds| - i
      {
        if i == |rounds| {
          return P.Blocked;
        }
        assert rounds[i..][0] == rounds[i] && rounds[i..][1..] == rounds[i + 1..];
        ghost var rest := P.WriteLoop(tuning, P.Pump(tuning, State(), rounds[i]).end, rounds[i + 1..]);
        var failure := Turn(rounds[i], goal, rest, old(wire));
        if failure.Some? {
          return P.Broken(failure.value);
        }
        i := i + 1;
      }
      tx := tx.(outgoing := [], outgoingConsumed := 0);
      status := P.Finished;
    }

    /** A blocking call bound for `goal` still has `rest` to go. */
    ghost predicate Leads(goal: P.Progress, rest: P.Progress, queued: seq<Packet>)
      reads this
    {
      goal.end == rest.end && goal.status == rest.status && queued + goal.sent == wire + rest.sent
    }

    /** One turn of a blocking call. */
    method Turn(r: P.Round, ghost goal: P.Progress, ghost rest: P.Progress, ghost queued: seq<Packet>)
      returns (failure: Option<Failure>)
      requires Leads(goal, P.After(P.Pump(tuning, State(), r), rest), queued)
      modifies this
      ensures failure == P.Pump(tuning, old(State()), r).failure
      ensures State() == P.Pump(tuning, old(State()), r).end
      ensures failure == None ==> Leads(goal, rest, queued)
      ensures failure.Some? ==> goal.end == State() && wire == queued + goal.sent && goal.status == P.Broken(failure.value)
    {
      ghost var o := P.Pump(tuning, State(), r);
      failure := Pump(r);
      if failure == None {
        assert old(wire) + (o.sent + rest.sent) == wire + rest.sent;
      }
    }

    method Flush(rounds: seq<P.Round>) returns (status: P.Status)
      modifies this
      ensures var p := P.FlushLoop(tuning, old(State()), rounds);
              State() == p.end && wire == old(wire) + p.sent && status == p.status
      ensures status == P.Finished ==> Tx.Flushed(tx)
    {
      ghost var goal := P.FlushLoop(tuning, State(), rounds);
      var i := 0;
      assert rounds[0..] == rounds;
      while tx.outgoingConsumed < |tx.outgoing| || |tx.unacked| > 0
        invariant i <= |rounds|
        invariant Leads(goal, P.FlushLoop(tuning, State(), rounds[i..]), old(wire))
        decreases |rounds| - i
      {
        if i == |rounds| {
          return P.Blocked;
        }
        assert rounds[i..][0] == rounds[i] && rounds[i..][1..] == rounds[i + 1..];
        ghost var rest := P.FlushLoop(tuning, P.Pump(tuning, State(), rounds[i]).end, rounds[i + 1..]);
        var failure := Turn(rounds[i], goal, rest, old(wire));
        if failure.Some? {
          return P.Broken(failure.value);
        }
        i := i + 1;
      }
      status := P.Finished;
    }

    /** The loop of `read_exactly`, after its opening turn of the engine. */
    method ReadLoop(wanted: nat, rounds: seq<P.Round>) returns (bytes: seq<byte>, status: P.Status)
      modifies this
      ensures var r := P.ReadLoop(tuning, old(State()), wanted, rounds);
              && State() == r.progress.end && wire == old(wire) + r.progress.sent
              && status == r.progress.status && bytes == r.bytes
    {
      hide P.Pump, Rx.ReadPart, Rx.AfterRead;
      bytes := [];
      ghost var goal := P.ReadLoop(tuning, State(), wanted, rounds);
      var i := 0;
      assert rounds[0..] == rounds;
      while |bytes| < wanted
        invariant i <= |rounds| && |bytes| <= wanted
        invariant var rest := P.ReadLoop(tuning, State(), wanted - |bytes|, rounds[i..]);
                  Leads(goal.progress, rest.progress, old(wire)) && goal.bytes == bytes + rest.bytes
        decreases |rounds| - i, wanted - |bytes|
      {
        if rx.deliveredConsumed < |rx.delivered| {
          var part := TakePart(wanted - |bytes|);
          ghost var rest := P.ReadLoop(tuning, State(), wanted - |bytes| - |part|, rounds[i..]);
          assert bytes + (part + rest.bytes) == (bytes + part) + rest.bytes;
          bytes := bytes + part;
        } else {
          if rx.peerFinished && |rx.reorder| == 0 {
            return bytes, P.PeerClosed;
          }
          if i == |rounds| {
            return bytes, P.Blocked;
          }
          assert rounds[i..][0] == rounds[i] && rounds[i..][1..] == rounds[i + 1..];
          ghost var rest := P.ReadLoop(tuning, P.Pump(tuning, State(), rounds[i]).end, wanted - |bytes|, rounds[i + 1..]);
          var failure := Turn(rounds[i], goal.progress, rest.progress, old(wire));
          if failure.Some? {
            return bytes, P.Broken(failure.value);
          }
          i := i + 1;
        }
      }
      status := P.Finished;
    }

    method TakePart(wanted: nat) returns (part: seq<byte>)
      requires rx.deliveredConsumed < |rx.delivered| && wanted > 0
      modifies this`rx
      ensures part == Rx.ReadPart(old(rx), wanted) && 0 < |part| <= wanted
      ensures rx == Rx.AfterRead(old(rx), wanted)
    {
      var available := |rx.delivered| - rx.deliveredConsumed;
      var take := if available < wanted then available else wanted;
      part := rx.delivered[rx.deliveredConsumed..rx.deliveredConsumed + take];
      rx := rx.(deliveredConsumed := rx.deliveredConsumed + take);
      if rx.deliveredConsumed == |rx.delivered| {
        rx := rx.(delivered := [], deliveredConsumed := 0);
      }
    }

    /** A failing opening turn throws before any byte is copied. */
    method ReadExactly(wanted: nat, opening: P.Round, rounds: seq<P.Round>) returns (bytes: seq<byte>, status: P.Status)
      modifies this
      ensures var o := P.Pump(tuning, old(State()), opening);
              if o.failure.Some? then
                State() == o.end && wire == old(wire) + o.sent && status == P.Broken(o.failure.value) && bytes == []
              else
                var r := P.ReadLoop(tuning, o.end, wanted, rounds);
                && State() == r.progress.end && wire == old(wire) + o.sent + r.progress.sent
                && status == r.progress.status && bytes == r.bytes
      ensures status == P.Finished ==> |bytes| == wanted
    {
      var failure := Pump(opening);
      if failure.Some? {
        return [], P.Broken(failure.value);
      }
      P.ReadIsExact(tuning, State(), wanted, rounds);
      bytes, status := ReadLoop(wanted, rounds);
    }
  }
}
