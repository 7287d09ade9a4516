/** The sending half of an endpoint. Every operation is written once, over a `Width`. */
module UdpSender {
  import opened Bytes
  import opened SequenceNumbers
  import opened Congestion
  import opened UdpPackets

  datatype SentPacket = SentPacket(
    sequence: nat, payload: seq<byte>, sentUs: nat, transmissions: nat, acknowledged: bool)

  datatype Sender = Sender(
    outgoing: seq<byte>, outgoingConsumed: nat,
    unacked: seq<SentPacket>, nextSequence: nat, sendBase: nat,
    window: Window, rtt: Rtt, pacer: Pacer, consecutiveTimeouts: nat, sentFin: bool)

  function InitialSender(t: Tuning): Sender {
    Sender([], 0, [], 0, 0, InitialWindow(t), Rtt(0, 0, t.initialRtoUs), Pacer(0.0, 0), 0, false)
  }

  /** What an operation leaves behind, the datagrams it queued, and whether it
      gave the peer up for dead. */
  datatype Sending = Sending(tx: Sender, sent: seq<Packet>, peerSilent: bool)

  /** A data packet carries the endpoint's own receive position. */
  function DataPacket(p: SentPacket, ack: nat): Packet {
    Packet(Data, p.sequence, ack, NoBits(), p.payload)
  }

  // -- First transmissions --------------------------------------------------

  predicate MaySend(tx: Sender) {
    && tx.outgoingConsumed < |tx.outgoing|
    && |tx.unacked| as real < tx.window.cwnd
    && tx.pacer.tokens >= 1.0
  }

  function NextPayload(tx: Sender): (payload: seq<byte>)
    requires tx.outgoingConsumed < |tx.outgoing|
    ensures 0 < |payload| <= MAX_PAYLOAD
    ensures payload <= tx.outgoing[tx.outgoingConsumed..]
  {
    var remaining := |tx.outgoing| - tx.outgoingConsumed;
    var length := if remaining < MAX_PAYLOAD then remaining else MAX_PAYLOAD;
    tx.outgoing[tx.outgoingConsumed..tx.outgoingConsumed + length]
  }

  function NextPacket(tx: Sender, now: nat): SentPacket
    requires tx.outgoingConsumed < |tx.outgoing|
  {
    SentPacket(tx.nextSequence, NextPayload(tx), now, 1, false)
  }

  /** Cut one packet off the outgoing bytes. */
  function SendOne(w: Width, tx: Sender, now: nat): Sender
    requires tx.outgoingConsumed < |tx.outgoing|
  {
    var packet := NextPacket(tx, now);
    tx.(pacer := tx.pacer.(tokens := tx.pacer.tokens - 1.0),
        nextSequence := Reduce(w, tx.nextSequence + 1),
        outgoingConsumed := tx.outgoingConsumed + |packet.payload|,
        unacked := tx.unacked + [packet])
  }

  function SendWhileAllowed(w: Width, tx: Sender, ack: nat, now: nat): Sending
    decreases |tx.outgoing| - tx.outgoingConsumed
  {
    if !MaySend(tx) then Sending(tx, [], false)
    else
      var rest := SendWhileAllowed(w, SendOne(w, tx, now), ack, now);
      rest.(sent := [DataPacket(NextPacket(tx, now), ack)] + rest.sent)
  }

  function Refilled(t: Tuning, tx: Sender, now: nat): Sender {
    tx.(pacer := Refill(t, tx.pacer, now, tx.window, tx.rtt.srtt))
  }

  function FillWindow(w: Width, t: Tuning, tx: Sender, ack: nat, now: nat): Sending {
    SendWhileAllowed(w, Refilled(t, tx, now), ack, now)
  }

  // -- Retransmission -------------------------------------------------------

  function Resent(p: SentPacket, now: nat): SentPacket {
    p.(sentUs := now, transmissions := p.transmissions + 1)
  }

  function RetransmitTimedOut(t: Tuning, tx: Sender, ack: nat, now: nat): Sending {
    if tx.unacked == [] || Elapsed(now, tx.unacked[0].sentUs) < tx.rtt.rto then Sending(tx, [], false)
    else
      var timeouts := tx.consecutiveTimeouts + 1;
      if timeouts > t.maxTimeouts then Sending(tx.(consecutiveTimeouts := timeouts), [], true)
      else
        var oldest := Resent(tx.unacked[0], now);
        Sending(tx.(consecutiveTimeouts := timeouts,
                    window := Collapsed(t, tx.window),
                    rtt := BackedOff(t, tx.rtt),
                    pacer := tx.pacer.(tokens := 0.0),
                    unacked := tx.unacked[0 := oldest]),
                [DataPacket(oldest, ack)], false)
  }

  // -- Acknowledgements -----------------------------------------------------

  /** How many packets at the front lie below the cumulative acknowledgement. */
  function Covered(w: Width, unacked: seq<SentPacket>, ack: nat): (n: nat)
    ensures n <= |unacked|
  {
    if unacked == [] || Distance(w, unacked[0].sequence, ack) >= 0 then 0
    else 1 + Covered(w, unacked[1..], ack)
  }

  /** Round-trip samples from the acknowledged packets that were sent only once. */
  function Samples(covered: seq<SentPacket>, now: nat): seq<nat> {
    if covered == [] then []
    else
      var last := covered[|covered| - 1];
      Samples(covered[..|covered| - 1], now)
      + (if last.transmissions == 1 then [Elapsed(now, last.sentUs)] else [])
  }

  predicate Reported(w: Width, p: SentPacket, ack: nat, bits: seq<bool>) {
    var offset := Distance(w, p.sequence, ack);
    1 <= offset <= 64 && offset <= |bits| && bits[offset - 1]
  }

  function Mark(w: Width, p: SentPacket, ack: nat, bits: seq<bool>): SentPacket {
    if Reported(w, p, ack, bits) then p.(acknowledged := true) else p
  }

  function MarkAll(w: Width, unacked: seq<SentPacket>, ack: nat, bits: seq<bool>): (marked: seq<SentPacket>)
    ensures |marked| == |unacked|
    ensures forall i :: 0 <= i < |unacked| ==> marked[i] == Mark(w, unacked[i], ack, bits)
  {
    seq(|unacked|, i requires 0 <= i < |unacked| => Mark(w, unacked[i], ack, bits))
  }

  function CountReported(w: Width, unacked: seq<SentPacket>, ack: nat, bits: seq<bool>): nat {
    if unacked == [] then 0
    else
      CountReported(w, unacked[..|unacked| - 1], ack, bits)
      + (if Reported(w, unacked[|unacked| - 1], ack, bits) then 1 else 0)
  }

  function CountNew(w: Width, unacked: seq<SentPacket>, ack: nat, bits: seq<bool>): nat {
    if unacked == [] then 0
    else
      var last := unacked[|unacked| - 1];
      CountNew(w, unacked[..|unacked| - 1], ack, bits)
      + (if Reported(w, last, ack, bits) && !last.acknowledged then 1 else 0)
  }

  // -- One packet more ------------------------------------------------------

  lemma CoveredFirst(w: Width, unacked: seq<SentPacket>, ack: nat)
    requires unacked != []
    ensures Covered(w, unacked, ack) ==
            if Distance(w, unacked[0].sequence, ack) < 0 then 1 + Covered(w, unacked[1..], ack) else 0
  {
  }

  lemma SamplesNext(all: seq<SentPacket>, k: nat, now: nat)
    requires k < |all|
    ensures Samples(all[..k + 1], now) ==
            Samples(all[..k], now) + if all[k].transmissions == 1 then [Elapsed(now, all[k].sentUs)] else []
  {
    assert all[..k + 1][..k] == all[..k];
  }

  lemma CountsNext(w: Width, all: seq<SentPacket>, k: nat, ack: nat, bits: seq<bool>)
    requires k < |all|
    ensures CountReported(w, all[..k + 1], ack, bits) ==
            CountReported(w, all[..k], ack, bits) + if Reported(w, all[k], ack, bits) then 1 else 0
    ensures CountNew(w, all[..k + 1], ack, bits) ==
            CountNew(w, all[..k], ack, bits) + if Reported(w, all[k], ack, bits) && !all[k].acknowledged then 1 else 0
  {
    assert all[..k + 1][..k] == all[..k];
    hide Reported;
  }

  /** What an acknowledgement says about the packets in flight: those it leaves,
      the samples it yields, how many it newly acknowledges and how many it
      reports beyond the gap. */
  datatype Digest = Digest(left: seq<SentPacket>, samples: seq<nat>, newly: nat, beyond: nat)

  function DigestOf(w: Width, unacked: seq<SentPacket>, ack: nat, bits: seq<bool>, now: nat): Digest {
    var n := Covered(w, unacked, ack);
    var left := unacked[n..];
    Digest(MarkAll(w, left, ack, bits), Samples(unacked[..n], now),
           n + CountNew(w, left, ack, bits), CountReported(w, left, ack, bits))
  }

  /** The bookkeeping of an acknowledgement: retire, sample, mark, grow the window. */
  function Absorb(t: Tuning, tx: Sender, ack: nat, d: Digest): Sender {
    tx.(unacked := d.left,
        sendBase := ack,
        rtt := Estimate(t, tx.rtt, d.samples),
        consecutiveTimeouts := if d.newly > 0 then 0 else tx.consecutiveTimeouts,
        window := Acknowledged(t, tx.window, d.newly))
  }

  /** Resend the packet at the gap when enough later ones are reported. */
  function FastRetransmit(t: Tuning, tx: Sender, beyond: nat, ack: nat, now: nat): Sending {
    if beyond >= t.fastRetransmitThreshold && tx.unacked != []
       && !tx.unacked[0].acknowledged && Elapsed(now, tx.unacked[0].sentUs) > tx.rtt.srtt / 2
    then
      var missing := Resent(tx.unacked[0], now);
      Sending(tx.(window := Halved(t, tx.window), unacked := tx.unacked[0 := missing]),
              [DataPacket(missing, ack)], false)
    else Sending(tx, [], false)
  }

  function Respond(t: Tuning, tx: Sender, ack: nat, d: Digest, own: nat, now: nat): Sending {
    FastRetransmit(t, Absorb(t, tx, ack, d), d.beyond, own, now)
  }

  /** `ack` and `bits` come from the peer; `own` is this side's receive position. */
  function ProcessAck(w: Width, t: Tuning, tx: Sender, ack: nat, bits: seq<bool>, own: nat, now: nat): Sending {
    Respond(t, tx, ack, DigestOf(w, tx.unacked, ack, bits, now), own, now)
  }

  // -- The application's side ----------------------------------------------

  function Queue(tx: Sender, data: seq<byte>): Sender { tx.(outgoing := tx.outgoing + data) }

  predicate Drained(tx: Sender) { tx.outgoingConsumed >= |tx.outgoing| }

  function Reclaim(tx: Sender): Sender { tx.(outgoing := [], outgoingConsumed := 0) }

  /** Everything handed over has been acknowledged; what `flush` waits for. */
  predicate Flushed(tx: Sender) { Drained(tx) && tx.unacked == [] }
}
