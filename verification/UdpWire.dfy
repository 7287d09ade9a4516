/** Every datagram of a 32-bit run fits its header, so the engine that reads its
    bytes off the socket takes the action the state machine speaks of. */
module UdpWire {
  import opened Bytes
  import opened SequenceNumbers
  import opened Congestion
  import opened UdpPackets
  import opened UdpHeader
  import opened UdpSender
  import opened UdpReceiver
  import opened UdpSystem
  import opened UdpGuarantees
  import opened UdpWrapping
  import opened UdpPump

  predicate FitsPacket(p: SentPacket) { p.sequence < MODULUS && |p.payload| <= MAX_PAYLOAD }

  predicate FitsSender(tx: Sender) {
    tx.nextSequence < MODULUS && forall i :: 0 <= i < |tx.unacked| ==> FitsPacket(tx.unacked[i])
  }

  predicate FitsEnd(e: Endpoint) { FitsSender(e.tx) && e.rx.receiveNext < MODULUS }

  predicate AllEncodable(packets: seq<Packet>) { forall i :: 0 <= i < |packets| ==> Encodable(packets[i]) }

  predicate FitsInbox(inbox: set<Packet>) { forall p :: p in inbox ==> Encodable(p) }

  predicate FitsPeer(x: Peer) { FitsEnd(x.end) && FitsInbox(x.inbox) }

  predicate Fits(s: System) { FitsPeer(s.left) && FitsPeer(s.right) }

  predicate FitsSending(o: Sending) { FitsSender(o.tx) && AllEncodable(o.sent) }

  lemma DataEncodable(p: SentPacket, ack: nat)
    requires FitsPacket(p) && ack < MODULUS
    ensures Encodable(DataPacket(p, ack))
  {
  }

  lemma ReduceFits(x: nat)
    ensures Reduce(Wrapping, x) < MODULUS
  {
  }

  lemma {:induction false} SendingFits(tx: Sender, ack: nat, now: nat)
    requires FitsSender(tx) && ack < MODULUS
    ensures FitsSending(SendWhileAllowed(Wrapping, tx, ack, now))
    decreases |tx.outgoing| - tx.outgoingConsumed
  {
    hide Encodable, DataPacket, Reduce;
    if MaySend(tx) {
      ReduceFits(tx.nextSequence + 1);
      DataEncodable(NextPacket(tx, now), ack);
      SendingFits(SendOne(Wrapping, tx, now), ack, now);
    }
  }

  lemma TimeoutFits(t: Tuning, tx: Sender, ack: nat, now: nat)
    requires FitsSender(tx) && ack < MODULUS
    ensures FitsSending(RetransmitTimedOut(t, tx, ack, now))
  {
    hide Encodable, DataPacket;
    if tx.unacked != [] {
      DataEncodable(Resent(tx.unacked[0], now), ack);
    }
  }

  lemma DigestFits(unacked: seq<SentPacket>, ack: nat, bits: seq<bool>, now: nat)
    requires forall i :: 0 <= i < |unacked| ==> FitsPacket(unacked[i])
    ensures var left := DigestOf(Wrapping, unacked, ack, bits, now).left;
            forall i :: 0 <= i < |left| ==> FitsPacket(left[i])
  {
    hide Covered, Samples, CountReported, CountNew, Reported;
  }

  lemma AckFits(t: Tuning, tx: Sender, p: Packet, own: nat, now: nat)
    requires FitsSender(tx) && own < MODULUS
    ensures FitsSending(ProcessAck(Wrapping, t, tx, p.ack, p.ackBits, own, now))
  {
    var d := DigestOf(Wrapping, tx.unacked, p.ack, p.ackBits, now);
    DigestFits(tx.unacked, p.ack, p.ackBits, now);
    hide DigestOf, Encodable, DataPacket;
    if d.left != [] {
      DataEncodable(Resent(d.left[0], now), own);
    }
  }

  lemma {:induction false} DeliveryFits(rx: Receiver)
    requires rx.receiveNext < MODULUS
    ensures DeliverWhileAllowed(Wrapping, rx).receiveNext < MODULUS
    decreases |rx.reorder|
  {
    if MayDeliver(rx) {
      ReduceFits(rx.receiveNext + 1);
      DeliveryFits(DeliverOne(Wrapping, rx));
    }
  }

  lemma ControlEncodable(kind: Kind, ack: nat)
    requires !kind.Unknown? && ack < MODULUS
    ensures Encodable(ControlPacket(kind, ack))
  {
  }

  lemma AckEncodable(rx: Receiver)
    requires rx.receiveNext < MODULUS
    ensures Encodable(AckPacket(Wrapping, rx))
  {
  }

  lemma HoldingFits(rx: Receiver, p: Packet)
    ensures Hold(Wrapping, rx, p).receiveNext == rx.receiveNext
  {
  }

  lemma AcceptFits(e: Endpoint, acked: Sending, p: Packet)
    requires FitsSending(acked) && e.rx.receiveNext < MODULUS
    ensures var o := Accept(Wrapping, e, acked, p); FitsEnd(o.end) && AllEncodable(o.sent)
  {
    hide Hold, Overflows, ControlPacket, Encodable, FitsSender;
    HoldingFits(e.rx, p);
    ControlEncodable(FinAck, e.rx.receiveNext);
  }

  lemma ReceiveFits(t: Tuning, e: Endpoint, p: Packet, now: nat)
    requires FitsEnd(e)
    ensures var o := ProcessPacket(Wrapping, t, e, p, now); FitsEnd(o.end) && AllEncodable(o.sent)
  {
    hide ProcessAck, Accept, FitsSending, AllEncodable;
    AckFits(t, e.tx, p, e.rx.receiveNext, now);
    AcceptFits(e, ProcessAck(Wrapping, t, e.tx, p.ack, p.ackBits, e.rx.receiveNext, now), p);
  }

  lemma ActFits(t: Tuning, x: Peer, action: Action)
    requires FitsPeer(x) && EffectOf(Wrapping, t, x, action).Moved?
    ensures var m := EffectOf(Wrapping, t, x, action); FitsPeer(m.peer) && AllEncodable(m.sent)
  {
    hide Encodable, FitsPacket, AckPacket, ControlPacket;
    var tx, rx := x.end.tx, x.end.rx;
    match action
    case Fill(now) =>
      SendingFits(Refilled(t, tx, now), rx.receiveNext, now);
      hide SendWhileAllowed;
    case Timeout(now) =>
      TimeoutFits(t, tx, rx.receiveNext, now);
      hide RetransmitTimedOut;
    case Receive(p, now) =>
      ReceiveFits(t, x.end, p, now);
      hide ProcessPacket, DigestOf;
    case Deliver =>
      DeliveryFits(rx);
      hide DeliverWhileAllowed;
    case Acknowledge => AckEncodable(rx);
    case SendFin => ControlEncodable(Fin, rx.receiveNext);
    case _ =>
  }

  lemma HearsFits(y: Peer, sent: seq<Packet>)
    requires FitsPeer(y) && AllEncodable(sent)
    ensures FitsPeer(Hears(y, sent))
  {
  }

  lemma StepFits(t: Tuning, s: System, s': System)
    requires Fits(s) && Step(Wrapping, t, s, s')
    ensures Fits(s')
  {
    hide EffectOf, FitsPeer;
    if action :| Acts(Wrapping, t, s.left, s.right, action, s'.left, s'.right) {
      ActFits(t, s.left, action);
      HearsFits(s.right, EffectOf(Wrapping, t, s.left, action).sent);
    } else {
      var action :| Acts(Wrapping, t, s.right, s.left, action, s'.right, s'.left);
      ActFits(t, s.right, action);
      HearsFits(s.left, EffectOf(Wrapping, t, s.right, action).sent);
    }
  }

  lemma {:induction false} RunFits(t: Tuning, run: seq<System>, i: nat)
    requires IsRun(Wrapping, t, run) && i < |run|
    ensures Fits(run[i])
  {
    if i > 0 {
      RunFits(t, run, i - 1);
      assert StepAt(Wrapping, t, run, i - 1);
      StepFits(t, run[i - 1], run[i]);
    }
  }

  /** A datagram on its way in any state of any 32-bit run parses back from its bytes. */
  lemma DatagramsSurvive(t: Tuning, run: seq<System>, i: nat, p: Packet, trailing: seq<byte>)
    requires IsRun(Wrapping, t, run) && i < |run|
    requires p in run[i].left.inbox || p in run[i].right.inbox
    ensures Parse(Encode(p) + trailing) == Some(p)
  {
    RunFits(t, run, i);
    ParseEncode(p, trailing);
  }

  /** So reading its bytes off the socket is the state machine's Receive. */
  lemma SocketIsReceive(t: Tuning, run: seq<System>, i: nat, p: Packet, trailing: seq<byte>, at: nat)
    requires IsRun(Wrapping, t, run) && i < |run| && p in run[i].left.inbox
    ensures var phase := ReceivePhase(Arrival(Encode(p) + trailing, at));
            && Supplied(run[i].left.inbox, phase)
            && ActionOf(run[i].left.end, phase) == Some(Receive(p, at))
            && DoPhase(t, run[i].left.end, phase) == ProcessPacket(Wrapping, t, run[i].left.end, p, at)
  {
    DatagramsSurvive(t, run, i, p, trailing);
    hide Parse, Encode, ProcessPacket, IsRun;
  }

  /** The stream guarantee with the bytes on the wire in it: what is on its way is
      what its bytes say, and what is read is a prefix of what was written, unless
      a stale datagram was live. */
  lemma WireStreamFaithful(t: Tuning, wire: seq<System>, i: nat)
    requires Usable(t) && IsRun(Wrapping, t, wire) && i < |wire|
    ensures forall p, trailing :: p in wire[i].left.inbox + wire[i].right.inbox ==> Parse(Encode(p) + trailing) == Some(p)
    ensures
      || (wire[i].right.read <= wire[i].left.written && wire[i].left.read <= wire[i].right.written)
      || exists run :: Explains(t, wire, run) && |run| <= i && !Live(run[|run| - 1])
  {
    WireReadsArePrefixOfWrites(t, wire, i);
    hide Explains, Parse, Encode;
    forall p, trailing | p in wire[i].left.inbox + wire[i].right.inbox ensures Parse(Encode(p) + trailing) == Some(p) {
      DatagramsSurvive(t, wire, i, p, trailing);
    }
  }
}
