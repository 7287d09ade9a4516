/** Two endpoints joined by a network that loses, duplicates and reorders
    datagrams, as a state machine over the operations of the two halves. */
module UdpSystem {
  import opened Bytes
  import opened SequenceNumbers
  import opened Congestion
  import opened UdpPackets
  import opened UdpSender
  import opened UdpReceiver

  datatype Endpoint = Endpoint(tx: Sender, rx: Receiver, ackPending: bool, finAcknowledged: bool)

  datatype Failure = PeerSilent | ReorderOverflow

  datatype Outcome = Outcome(end: Endpoint, sent: seq<Packet>, failure: Option<Failure>)

  /** A parsed datagram: first its acknowledgement, then what it carries. */
  function ProcessPacket(w: Width, t: Tuning, e: Endpoint, p: Packet, now: nat): Outcome {
    Accept(w, e, ProcessAck(w, t, e.tx, p.ack, p.ackBits, e.rx.receiveNext, now), p)
  }

  function Accept(w: Width, e: Endpoint, acked: Sending, p: Packet): Outcome {
    var e' := e.(tx := acked.tx);
    match p.kind
    case Data =>
      if Overflows(w, e.rx, p) then Outcome(e', acked.sent, Some(ReorderOverflow))
      else Outcome(e'.(rx := Hold(w, e.rx, p), ackPending := true), acked.sent, None)
    case Fin =>
      Outcome(e'.(rx := e.rx.(peerFinished := true)),
              acked.sent + [ControlPacket(FinAck, e.rx.receiveNext)], None)
    case FinAck => Outcome(e'.(finAcknowledged := true), acked.sent, None)
    case _ => Outcome(e', acked.sent, None)
  }

  // -- The state machine ----------------------------------------------------

  /** An endpoint, the datagrams on their way to it, and the history the
      properties speak of: the bytes its application wrote and read, the payload
      of every packet it cut, its round-trip samples, and what its pacer earned. */
  datatype Peer = Peer(
    end: Endpoint, inbox: set<Packet>,
    written: seq<byte>, read: seq<byte>,
    log: seq<seq<byte>>, samples: seq<nat>, earned: real)

  datatype System = System(left: Peer, right: Peer)

  datatype Action =
    | StartWrite(data: seq<byte>)
    | FinishWrite
    | Fill(now: nat)
    | Timeout(now: nat)
    | Receive(packet: Packet, at: nat)
    | Deliver
    | Acknowledge
    | Read(wanted: nat)
    | StartClose
    | SendFin
    | Lose(kept: set<Packet>)

  datatype Effect = Disabled | Failed(failure: Failure) | Moved(peer: Peer, sent: seq<Packet>)

  function Payloads(packets: seq<Packet>): seq<seq<byte>> {
    seq(|packets|, i requires 0 <= i < |packets| => packets[i].payload)
  }

  function Accrued(tx: Sender, now: nat): real {
    if tx.pacer.lastUs == 0 then 0.0 else Earned(Elapsed(now, tx.pacer.lastUs), tx.window, tx.rtt.srtt)
  }

  function WithSender(x: Peer, tx: Sender): Peer { x.(end := x.end.(tx := tx)) }
  function WithReceiver(x: Peer, rx: Receiver): Peer { x.(end := x.end.(rx := rx)) }

  function Filled(x: Peer, o: Sending, accrued: real): Effect {
    Moved(WithSender(x, o.tx).(log := x.log + Payloads(o.sent), earned := x.earned + accrued), o.sent)
  }

  function Received(x: Peer, o: Outcome, samples: seq<nat>): Effect {
    if o.failure.Some? then Failed(o.failure.value)
    else Moved(x.(end := o.end, samples := x.samples + samples), o.sent)
  }

  /** What one peer's action does to it, and the datagrams it puts on the wire.
      A datagram that is received stays in the network, so it may come again. */
  function EffectOf(w: Width, t: Tuning, x: Peer, action: Action): Effect {
    var tx, rx := x.end.tx, x.end.rx;
    match action
    case StartWrite(data) =>
      if tx.sentFin then Disabled else Moved(WithSender(x, Queue(tx, data)).(written := x.written + data), [])
    case FinishWrite =>
      if Drained(tx) then Moved(WithSender(x, Reclaim(tx)), []) else Disabled
    case Fill(now) =>
      if now == 0 then Disabled
      else Filled(x, FillWindow(w, t, tx, rx.receiveNext, now), Accrued(tx, now))
    case Timeout(now) =>
      var o := RetransmitTimedOut(t, tx, rx.receiveNext, now);
      if o.peerSilent then Failed(PeerSilent) else Moved(WithSender(x, o.tx), o.sent)
    case Receive(p, now) =>
      if p !in x.inbox then Disabled
      else Received(x, ProcessPacket(w, t, x.end, p, now), DigestOf(w, tx.unacked, p.ack, p.ackBits, now).samples)
    case Deliver => Moved(WithReceiver(x, DeliverInOrder(w, rx)), [])
    case Acknowledge =>
      if x.end.ackPending then Moved(x.(end := x.end.(ackPending := false)), [AckPacket(w, rx)]) else Disabled
    case Read(wanted) =>
      if Readable(rx) then Moved(WithReceiver(x, AfterRead(rx, wanted)).(read := x.read + ReadPart(rx, wanted)), [])
      else Disabled
    case StartClose => if Flushed(tx) then Moved(WithSender(x, tx.(sentFin := true)), []) else Disabled
    case SendFin => if tx.sentFin then Moved(x, [ControlPacket(Fin, rx.receiveNext)]) else Disabled
    case Lose(kept) => if kept <= x.inbox then Moved(x.(inbox := kept), []) else Disabled
  }

  function Hears(y: Peer, sent: seq<Packet>): Peer { y.(inbox := y.inbox + set p | p in sent) }

  predicate Acts(w: Width, t: Tuning, x: Peer, y: Peer, action: Action, x': Peer, y': Peer) {
    var m := EffectOf(w, t, x, action);
    m.Moved? && x' == m.peer && y' == Hears(y, m.sent)
  }

  ghost predicate Step(w: Width, t: Tuning, s: System, s': System) {
    || (exists action :: Acts(w, t, s.left, s.right, action, s'.left, s'.right))
    || (exists action :: Acts(w, t, s.right, s.left, action, s'.right, s'.left))
  }

  /** Left-over probes of the hole punch may still be on their way. */
  predicate Stray(p: Packet) {
    && (p.kind.Punch? || p.kind.PunchAck?) && p.sequence == 0 && p.ack == 0 && p.ackBits == NoBits()
    && |p.payload| <= MAX_PAYLOAD
  }

  predicate Unused(t: Tuning, x: Peer) {
    && x.end == Endpoint(InitialSender(t), INITIAL_RECEIVER, false, false)
    && x.written == [] && x.read == [] && x.log == [] && x.samples == [] && x.earned == 0.0
    && forall p :: p in x.inbox ==> Stray(p)
  }

  ghost predicate IsRun(w: Width, t: Tuning, run: seq<System>) {
    && run != []
    && Unused(t, run[0].left) && Unused(t, run[0].right)
    && forall i :: 0 <= i < |run| - 1 ==> StepAt(w, t, run, i)
  }

  ghost predicate Reachable(w: Width, t: Tuning, s: System) {
    exists run :: IsRun(w, t, run) && run[|run| - 1] == s
  }

  ghost predicate StepAt(w: Width, t: Tuning, run: seq<System>, i: nat)
    requires i + 1 < |run|
  {
    Step(w, t, run[i], run[i + 1])
  }

  // -- The joint invariant --------------------------------------------------

  /** The unacknowledged packets are the last ones cut, in order, and no more
      than the window ceiling. */
  predicate Contiguous(t: Tuning, tx: Sender, log: seq<seq<byte>>) {
    && tx.nextSequence == |log|
    && |tx.unacked| as real < t.maxCwnd + 1.0
    && Tail(tx.unacked, log)
  }

  predicate Tail(unacked: seq<SentPacket>, log: seq<seq<byte>>) {
    && |unacked| <= |log|
    && forall i :: 0 <= i < |unacked| ==>
         && unacked[i].sequence == |log| - |unacked| + i
         && unacked[i].payload == log[|log| - |unacked| + i]
  }

  /** Bytes written are bytes cut into packets plus bytes still waiting. */
  predicate Conserved(tx: Sender, log: seq<seq<byte>>, written: seq<byte>) {
    && tx.outgoingConsumed <= |tx.outgoing|
    && Join(log) + tx.outgoing[tx.outgoingConsumed..] == written
  }

  predicate SendSide(t: Tuning, tx: Sender, log: seq<seq<byte>>, written: seq<byte>) {
    && Contiguous(t, tx, log)
    && Conserved(tx, log, written)
    && (tx.sentFin ==> Flushed(tx))
  }

  /** The receiver has delivered, or is holding, sequence `k`. */
  predicate Has(rx: Receiver, k: int) { k < rx.receiveNext || k in rx.reorder }

  predicate Held(rx: Receiver, log: seq<seq<byte>>) {
    forall k :: k in rx.reorder ==> rx.receiveNext <= k < |log| && rx.reorder[k] == log[k]
  }

  predicate Streamed(rx: Receiver, log: seq<seq<byte>>, read: seq<byte>) {
    && rx.receiveNext <= |log|
    && rx.deliveredConsumed <= |rx.delivered|
    && read + rx.delivered[rx.deliveredConsumed..] == Join(log[..rx.receiveNext])
  }

  predicate MarksSound(unacked: seq<SentPacket>, rx: Receiver) {
    forall i :: 0 <= i < |unacked| && unacked[i].acknowledged ==> Has(rx, unacked[i].sequence)
  }

  predicate AckSound(p: Packet, rx: Receiver) {
    && |p.ackBits| == 64
    && p.ack <= rx.receiveNext
    && forall k :: 0 <= k < 64 && p.ackBits[k] ==> Has(rx, p.ack + 1 + k)
  }

  predicate AllSound(packets: set<Packet>, rx: Receiver) {
    forall p :: p in packets ==> AckSound(p, rx)
  }

  predicate Carries(p: Packet, log: seq<seq<byte>>, closed: bool) {
    && (p.kind.Data? ==> p.sequence < |log| && p.payload == log[p.sequence])
    && (p.kind.Fin? ==> closed)
  }

  predicate AllCarry(packets: set<Packet>, log: seq<seq<byte>>, closed: bool) {
    forall p :: p in packets ==> Carries(p, log, closed)
  }

  /** What the sender and the receiver of one stream know of each other. */
  predicate Matched(tx: Sender, log: seq<seq<byte>>, rx: Receiver, read: seq<byte>) {
    && Held(rx, log)
    && Streamed(rx, log, read)
    && |log| - |tx.unacked| <= rx.receiveNext
    && MarksSound(tx.unacked, rx)
    && (rx.peerFinished ==> tx.sentFin)
  }

  /** The stream from `x` to `y`; `acks` are on their way to `x`, `data` to `y`. */
  predicate Stream(t: Tuning, tx: Sender, log: seq<seq<byte>>, written: seq<byte>, acks: set<Packet>,
                   rx: Receiver, read: seq<byte>, data: set<Packet>)
  {
    && SendSide(t, tx, log, written)
    && Matched(tx, log, rx, read)
    && AllCarry(data, log, tx.sentFin)
    && AllSound(acks, rx)
  }

  predicate Flow(t: Tuning, x: Peer, y: Peer) {
    Stream(t, x.end.tx, x.log, x.written, x.inbox, y.end.rx, y.read, y.inbox)
  }

  /** The sender's estimates and budgets. */
  predicate Controlled(t: Tuning, tx: Sender, samples: seq<nat>) {
    var r := Estimate(t, Rtt(0, 0, t.initialRtoUs), samples);
    && WindowOk(t, tx.window)
    && tx.rtt.srtt == r.srtt && tx.rtt.rttvar == r.rttvar && RtoOk(t, tx.rtt)
    && PacerOk(t, tx.pacer)
  }

  predicate PacerOk(t: Tuning, p: Pacer) {
    0.0 <= p.tokens <= t.maxBurst && (p.lastUs == 0 ==> p.tokens == 0.0)
  }

  predicate Inv(t: Tuning, s: System) {
    && Flow(t, s.left, s.right) && Flow(t, s.right, s.left)
    && Controlled(t, s.left.end.tx, s.left.samples)
    && Controlled(t, s.right.end.tx, s.right.samples)
  }

  /** Datagrams an endpoint may put on the wire. */
  predicate Honest(sent: seq<Packet>, log: seq<seq<byte>>, closed: bool, rx: Receiver) {
    forall p :: p in sent ==> Carries(p, log, closed) && AckSound(p, rx)
  }

  /** An action that keeps both streams and emits honest datagrams. */
  predicate Good(t: Tuning, x: Peer, y: Peer, sent: seq<Packet>) {
    && Flow(t, x, y) && Flow(t, y, x)
    && Honest(sent, x.log, x.end.tx.sentFin, x.end.rx)
  }

  lemma EmissionKeeps(t: Tuning, x: Peer, y: Peer, sent: seq<Packet>)
    requires Good(t, x, y, sent)
    ensures Flow(t, x, Hears(y, sent)) && Flow(t, Hears(y, sent), x)
  {
  }

  // -- Sending --------------------------------------------------------------

  lemma SendOneKeeps(t: Tuning, tx: Sender, log: seq<seq<byte>>, written: seq<byte>, now: nat)
    requires SendSide(t, tx, log, written) && MaySend(tx) && tx.window.cwnd <= t.maxCwnd
    ensures SendSide(t, SendOne(Unbounded, tx, now), log + [NextPayload(tx)], written)
  {
    var payload := NextPayload(tx);
    var tx' := SendOne(Unbounded, tx, now);
    hide Join;
    JoinAppend(log, payload);
    assert tx.outgoing[tx.outgoingConsumed..] == payload + tx'.outgoing[tx'.outgoingConsumed..];
    Regroup(Join(log), payload, tx'.outgoing[tx'.outgoingConsumed..]);
  }

  /** A sender with a longer log of packets, nothing acknowledged among the new ones. */
  predicate Extends(tx: Sender, log: seq<seq<byte>>, tx': Sender, log': seq<seq<byte>>) {
    && log <= log'
    && |log'| - |tx'.unacked| == |log| - |tx.unacked|
    && |tx.unacked| <= |tx'.unacked|
    && tx'.unacked[..|tx.unacked|] == tx.unacked
    && (forall i :: |tx.unacked| <= i < |tx'.unacked| ==> !tx'.unacked[i].acknowledged)
    && tx'.sentFin == tx.sentFin && tx'.window == tx.window && tx'.rtt == tx.rtt
  }

  lemma {:induction false} SendingKeeps(t: Tuning, tx: Sender, log: seq<seq<byte>>, written: seq<byte>, ack: nat, now: nat)
    requires SendSide(t, tx, log, written) && tx.window.cwnd <= t.maxCwnd
    ensures var o := SendWhileAllowed(Unbounded, tx, ack, now);
            var log' := log + Payloads(o.sent);
            SendSide(t, o.tx, log', written) && Extends(tx, log, o.tx, log')
    decreases |tx.outgoing| - tx.outgoingConsumed
  {
    var o := SendWhileAllowed(Unbounded, tx, ack, now);
    var log' := log + Payloads(o.sent);
    if !MaySend(tx) {
      assert log' == log;
    } else {
      var next := SendOne(Unbounded, tx, now);
      var longer := log + [NextPayload(tx)];
      SendOneKeeps(t, tx, log, written, now);
      SendingKeeps(t, next, longer, written, ack, now);
      var rest := SendWhileAllowed(Unbounded, next, ack, now);
      assert log' == longer + Payloads(rest.sent);
      ExtendsTransitive(tx, log, next, longer, o.tx, log');
    }
  }

  lemma ExtendsTransitive(tx: Sender, log: seq<seq<byte>>, tx': Sender, log': seq<seq<byte>>, tx'': Sender, log'': seq<seq<byte>>)
    requires Extends(tx, log, tx', log') && Extends(tx', log', tx'', log'')
    ensures Extends(tx, log, tx'', log'')
  {
    assert tx''.unacked[..|tx.unacked|] == tx''.unacked[..|tx'.unacked|][..|tx.unacked|];
    forall i | |tx.unacked| <= i < |tx''.unacked|
      ensures !tx''.unacked[i].acknowledged
    {
      if i < |tx'.unacked| {
        assert tx''.unacked[i] == tx''.unacked[..|tx'.unacked|][i];
      }
    }
  }

  /** First transmissions are the next packets of the log, in order. */
  lemma {:induction false} SentInOrder(tx: Sender, ack: nat, now: nat, i: nat)
    requires i < |SendWhileAllowed(Unbounded, tx, ack, now).sent|
    ensures var p := SendWhileAllowed(Unbounded, tx, ack, now).sent[i];
            p == Packet(Data, tx.nextSequence + i, ack, NoBits(), p.payload)
    decreases |tx.outgoing| - tx.outgoingConsumed
  {
    if i > 0 {
      SentInOrder(SendOne(Unbounded, tx, now), ack, now, i - 1);
    }
  }

  lemma ExtendedMatch(tx: Sender, log: seq<seq<byte>>, tx': Sender, log': seq<seq<byte>>, rx: Receiver, read: seq<byte>)
    requires Matched(tx, log, rx, read) && Extends(tx, log, tx', log')
    ensures Matched(tx', log', rx, read)
  {
    assert log'[..rx.receiveNext] == log[..rx.receiveNext];
    forall i | 0 <= i < |tx'.unacked| && tx'.unacked[i].acknowledged
      ensures Has(rx, tx'.unacked[i].sequence)
    {
      assert tx'.unacked[i] == tx'.unacked[..|tx.unacked|][i];
    }
  }

  lemma NoBitsSound(p: Packet, rx: Receiver)
    requires p.ack <= rx.receiveNext && p.ackBits == NoBits()
    ensures AckSound(p, rx)
  {
  }

  lemma FilledKeeps(t: Tuning, x: Peer, y: Peer, tx: Sender, o: Sending, accrued: real)
    requires Flow(t, x, y) && Flow(t, y, x)
    requires Matched(tx, x.log, y.end.rx, y.read) && tx.sentFin == x.end.tx.sentFin
    requires SendSide(t, o.tx, x.log + Payloads(o.sent), x.written)
    requires Extends(tx, x.log, o.tx, x.log + Payloads(o.sent))
    requires forall i :: 0 <= i < |o.sent| ==>
               o.sent[i] == Packet(Data, |x.log| + i, x.end.rx.receiveNext, NoBits(), o.sent[i].payload)
    ensures var m := Filled(x, o, accrued); Good(t, m.peer, y, m.sent)
  {
    var log' := x.log + Payloads(o.sent);
    ExtendedMatch(tx, x.log, o.tx, log', y.end.rx, y.read);
    forall p | p in o.sent
      ensures Carries(p, log', tx.sentFin) && AckSound(p, x.end.rx)
    {
      var i :| 0 <= i < |o.sent| && o.sent[i] == p;
      NoBitsSound(p, x.end.rx);
    }
  }

  lemma FillKeeps(t: Tuning, x: Peer, y: Peer, now: nat)
    requires Flow(t, x, y) && Flow(t, y, x) && WindowOk(t, x.end.tx.window) && now > 0
    ensures var m := EffectOf(Unbounded, t, x, Fill(now)); m.Moved? && Good(t, m.peer, y, m.sent)
  {
    var tx, own := Refilled(t, x.end.tx, now), x.end.rx.receiveNext;
    SendingKeeps(t, tx, x.log, x.written, own, now);
    var o := FillWindow(Unbounded, t, x.end.tx, own, now);
    forall i | 0 <= i < |o.sent|
      ensures o.sent[i] == Packet(Data, |x.log| + i, own, NoBits(), o.sent[i].payload)
    {
      SentInOrder(tx, own, now, i);
    }
    FilledKeeps(t, x, y, tx, o, Accrued(x.end.tx, now));
  }

  /** Only send times and counts differ. */
  predicate SamePackets(a: seq<SentPacket>, b: seq<SentPacket>) {
    && |a| == |b|
    && forall i :: 0 <= i < |a| ==>
         a[i].sequence == b[i].sequence && a[i].payload == b[i].payload && a[i].acknowledged == b[i].acknowledged
  }

  lemma ResendKeeps(t: Tuning, x: Peer, y: Peer, tx': Sender, sent: seq<Packet>)
    requires Flow(t, x, y) && Flow(t, y, x)
    requires SamePackets(x.end.tx.unacked, tx'.unacked)
    requires tx' == x.end.tx.(unacked := tx'.unacked, window := tx'.window, rtt := tx'.rtt, pacer := tx'.pacer,
                              consecutiveTimeouts := tx'.consecutiveTimeouts)
    requires forall p :: p in sent ==>
               tx'.unacked != [] && p == DataPacket(tx'.unacked[0], x.end.rx.receiveNext)
    ensures Good(t, WithSender(x, tx'), y, sent)
  {
    forall p | p in sent
      ensures AckSound(p, x.end.rx)
    {
      NoBitsSound(p, x.end.rx);
    }
  }

  lemma TimeoutKeeps(t: Tuning, x: Peer, y: Peer, now: nat)
    requires Flow(t, x, y) && Flow(t, y, x)
    ensures var m := EffectOf(Unbounded, t, x, Timeout(now)); m.Moved? ==> Good(t, m.peer, y, m.sent)
  {
    var o := RetransmitTimedOut(t, x.end.tx, x.end.rx.receiveNext, now);
    ResendKeeps(t, x, y, o.tx, o.sent);
  }

  // -- Acknowledgements -----------------------------------------------------

  lemma {:induction false} CoveredIsPrefix(unacked: seq<SentPacket>, ack: nat, first: int)
    requires forall i :: 0 <= i < |unacked| ==> unacked[i].sequence == first + i
    ensures var n := Covered(Unbounded, unacked, ack);
            && (n > 0 ==> first + n <= ack)
            && (n < |unacked| ==> ack <= first + n)
  {
    if unacked != [] && Distance(Unbounded, unacked[0].sequence, ack) < 0 {
      CoveredIsPrefix(unacked[1..], ack, first + 1);
    }
  }

  lemma AbsorbedMarks(unacked: seq<SentPacket>, rx: Receiver, p: Packet)
    requires MarksSound(unacked, rx) && AckSound(p, rx)
    ensures MarksSound(MarkAll(Unbounded, unacked, p.ack, p.ackBits), rx)
  {
    var marked := MarkAll(Unbounded, unacked, p.ack, p.ackBits);
    forall i | 0 <= i < |marked| && marked[i].acknowledged
      ensures Has(rx, marked[i].sequence)
    {
      if Reported(Unbounded, unacked[i], p.ack, p.ackBits) {
        var offset := Distance(Unbounded, unacked[i].sequence, p.ack);
        assert p.ackBits[offset - 1];
      } else {
        assert unacked[i].acknowledged;
      }
    }
  }

  lemma Dropped(unacked: seq<SentPacket>, n: nat, log: seq<seq<byte>>, rx: Receiver)
    requires Tail(unacked, log) && MarksSound(unacked, rx) && n <= |unacked|
    ensures Tail(unacked[n..], log) && MarksSound(unacked[n..], rx)
  {
    assert forall i :: 0 <= i < |unacked[n..]| ==> unacked[n..][i] == unacked[n + i];
  }

  lemma MarkedTail(unacked: seq<SentPacket>, log: seq<seq<byte>>, ack: nat, bits: seq<bool>)
    requires Tail(unacked, log)
    ensures Tail(MarkAll(Unbounded, unacked, ack, bits), log)
  {
  }

  /** A packet is retired only below the peer's delivered prefix, and marked only
      if the peer has it. */
  lemma AcknowledgedSoundly(unacked: seq<SentPacket>, log: seq<seq<byte>>, rx: Receiver, p: Packet, now: nat)
    requires Tail(unacked, log) && MarksSound(unacked, rx) && AckSound(p, rx)
    requires |log| - |unacked| <= rx.receiveNext
    ensures var left := DigestOf(Unbounded, unacked, p.ack, p.ackBits, now).left;
            && Tail(left, log) && MarksSound(left, rx)
            && |log| - |left| <= rx.receiveNext && |left| <= |unacked|
  {
    var n := Covered(Unbounded, unacked, p.ack);
    CoveredIsPrefix(unacked, p.ack, |log| - |unacked|);
    Dropped(unacked, n, log, rx);
    AbsorbedMarks(unacked[n..], rx, p);
    MarkedTail(unacked[n..], log, p.ack, p.ackBits);
  }

  lemma AbsorbKeeps(t: Tuning, tx: Sender, log: seq<seq<byte>>, written: seq<byte>,
                    rx: Receiver, read: seq<byte>, ack: nat, d: Digest)
    requires SendSide(t, tx, log, written) && Matched(tx, log, rx, read)
    requires Tail(d.left, log) && MarksSound(d.left, rx) && |log| - |d.left| <= rx.receiveNext && |d.left| <= |tx.unacked|
    ensures SendSide(t, Absorb(t, tx, ack, d), log, written) && Matched(Absorb(t, tx, ack, d), log, rx, read)
  {
  }

  lemma RespondKeeps(t: Tuning, x: Peer, y: Peer, ack: nat, d: Digest, now: nat)
    requires Flow(t, WithSender(x, Absorb(t, x.end.tx, ack, d)), y) && Flow(t, y, x)
    ensures var o := Respond(t, x.end.tx, ack, d, x.end.rx.receiveNext, now);
            Good(t, WithSender(x, o.tx), y, o.sent)
  {
    var m := WithSender(x, Absorb(t, x.end.tx, ack, d));
    var o := Respond(t, x.end.tx, ack, d, x.end.rx.receiveNext, now);
    ResendKeeps(t, m, y, o.tx, o.sent);
  }

  lemma ProcessAckKeeps(t: Tuning, x: Peer, y: Peer, p: Packet, now: nat)
    requires Flow(t, x, y) && Flow(t, y, x) && p in x.inbox
    ensures var o := ProcessAck(Unbounded, t, x.end.tx, p.ack, p.ackBits, x.end.rx.receiveNext, now);
            Good(t, WithSender(x, o.tx), y, o.sent)
  {
    AcknowledgedSoundly(x.end.tx.unacked, x.log, y.end.rx, p, now);
    var d := DigestOf(Unbounded, x.end.tx.unacked, p.ack, p.ackBits, now);
    AbsorbKeeps(t, x.end.tx, x.log, x.written, y.end.rx, y.read, p.ack, d);
    RespondKeeps(t, x, y, p.ack, d, now);
  }

  // -- Receiving ------------------------------------------------------------

  lemma {:induction false} RangeSize(keys: set<nat>, low: int, high: int)
    requires forall k :: k in keys ==> low <= k < high
    requires low <= high
    ensures |keys| <= high - low
    decreases high - low
  {
    if low == high {
      assert keys == {};
    } else {
      RangeSize(keys - {high - 1}, low, high - 1);
    }
  }

  /** The reorder buffer never holds more than the peer's window. */
  lemma ReorderBounded(t: Tuning, tx: Sender, log: seq<seq<byte>>, rx: Receiver, read: seq<byte>)
    requires Contiguous(t, tx, log) && Matched(tx, log, rx, read)
    ensures |rx.reorder| <= |tx.unacked|
    ensures |rx.reorder| as real < t.maxCwnd + 1.0
  {
    RangeSize(rx.reorder.Keys, rx.receiveNext, |log|);
  }

  /** The receiver only ever gains packets. */
  ghost predicate Gains(rx: Receiver, rx': Receiver) {
    && rx.receiveNext <= rx'.receiveNext
    && forall k: nat :: Has(rx, k) ==> Has(rx', k)
  }

  lemma GainKeeps(t: Tuning, y: Peer, x: Peer, rx': Receiver, read': seq<byte>)
    requires Flow(t, y, x) && Gains(x.end.rx, rx')
    requires Held(rx', y.log) && Streamed(rx', y.log, read')
    requires rx'.peerFinished ==> y.end.tx.sentFin
    ensures Flow(t, y, WithReceiver(x, rx').(read := read'))
  {
    forall p | p in y.inbox
      ensures AckSound(p, rx')
    {
      assert AckSound(p, x.end.rx);
    }
  }

  lemma SoundLater(sent: seq<Packet>, log: seq<seq<byte>>, closed: bool, rx: Receiver, rx': Receiver)
    requires Honest(sent, log, closed, rx) && Gains(rx, rx')
    ensures Honest(sent, log, closed, rx')
  {
    forall p | p in sent
      ensures AckSound(p, rx')
    {
      assert AckSound(p, rx);
    }
  }

  lemma HoldGains(rx: Receiver, p: Packet, log: seq<seq<byte>>, read: seq<byte>)
    requires Held(rx, log) && Streamed(rx, log, read) && Carries(p, log, true) && p.kind.Data?
    ensures var rx' := Hold(Unbounded, rx, p);
            Gains(rx, rx') && Held(rx', log) && Streamed(rx', log, read) && rx'.peerFinished == rx.peerFinished
  {
  }

  lemma AcceptDataKeeps(t: Tuning, x: Peer, y: Peer, p: Packet, sent: seq<Packet>)
    requires Good(t, x, y, sent) && p in x.inbox && p.kind.Data?
    ensures Good(t, WithReceiver(x, Hold(Unbounded, x.end.rx, p)), y, sent)
  {
    var rx := x.end.rx;
    assert Carries(p, y.log, y.end.tx.sentFin);
    HoldGains(rx, p, y.log, x.read);
    GainKeeps(t, y, x, Hold(Unbounded, rx, p), x.read);
    SoundLater(sent, x.log, x.end.tx.sentFin, rx, Hold(Unbounded, rx, p));
  }

  lemma AcceptFinKeeps(t: Tuning, x: Peer, y: Peer, p: Packet, sent: seq<Packet>)
    requires Good(t, x, y, sent) && p in x.inbox && p.kind.Fin?
    ensures Good(t, WithReceiver(x, x.end.rx.(peerFinished := true)), y,
                 sent + [ControlPacket(FinAck, x.end.rx.receiveNext)])
  {
    var rx := x.end.rx;
    var rx' := rx.(peerFinished := true);
    assert Carries(p, y.log, y.end.tx.sentFin);
    GainKeeps(t, y, x, rx', x.read);
    SoundLater(sent, x.log, x.end.tx.sentFin, rx, rx');
    NoBitsSound(ControlPacket(FinAck, rx.receiveNext), rx');
  }

  lemma AcceptKeeps(t: Tuning, x: Peer, y: Peer, acked: Sending, p: Packet)
    requires Good(t, WithSender(x, acked.tx), y, acked.sent) && p in x.inbox
    requires |x.end.rx.reorder| < MAX_REORDER_PACKETS
    ensures var o := Accept(Unbounded, x.end, acked, p);
            o.failure == None && Good(t, x.(end := o.end), y, o.sent)
  {
    var m := WithSender(x, acked.tx);
    if p.kind.Data? {
      AcceptDataKeeps(t, m, y, p, acked.sent);
    } else if p.kind.Fin? {
      AcceptFinKeeps(t, m, y, p, acked.sent);
    }
  }

  lemma FlowParts(t: Tuning, x: Peer, y: Peer)
    requires Flow(t, x, y)
    ensures Contiguous(t, x.end.tx, x.log) && Matched(x.end.tx, x.log, y.end.rx, y.read)
  {
    hide Contiguous, Conserved, Matched, AllCarry, AllSound;
  }

  lemma ReceiveKeeps(t: Tuning, x: Peer, y: Peer, p: Packet, now: nat)
    requires Flow(t, x, y) && Flow(t, y, x) && p in x.inbox
    requires t.maxCwnd + 1.0 <= MAX_REORDER_PACKETS as real
    ensures var m := EffectOf(Unbounded, t, x, Receive(p, now)); m.Moved? && Good(t, m.peer, y, m.sent)
  {
    hide ProcessAck, Accept, DigestOf, Stream, Honest;
    ProcessAckKeeps(t, x, y, p, now);
    FlowParts(t, y, x);
    ReorderBounded(t, y.end.tx, y.log, x.end.rx, x.read);
    AcceptKeeps(t, x, y, ProcessAck(Unbounded, t, x.end.tx, p.ack, p.ackBits, x.end.rx.receiveNext, now), p);
  }

  lemma DropAppend(a: seq<byte>, b: seq<byte>, n: nat)
    requires n <= |a|
    ensures (a + b)[n..] == a[n..] + b
  {
  }

  lemma JoinNext(log: seq<seq<byte>>, k: nat)
    requires k < |log|
    ensures Join(log[..k + 1]) == Join(log[..k]) + log[k]
  {
    hide Join;
    JoinAppend(log[..k], log[k]);
    assert log[..k + 1] == log[..k] + [log[k]];
  }

  lemma DeliverOneStreams(rx: Receiver, log: seq<seq<byte>>, read: seq<byte>)
    requires Held(rx, log) && Streamed(rx, log, read) && rx.receiveNext in rx.reorder
    ensures Streamed(DeliverOne(Unbounded, rx), log, read)
  {
    hide Join, Held;
    var k := rx.receiveNext;
    HeldAt(rx, log, k);
    JoinNext(log, k);
    DropAppend(rx.delivered, log[k], rx.deliveredConsumed);
    Regroup(read, rx.delivered[rx.deliveredConsumed..], log[k]);
  }

  lemma HeldAt(rx: Receiver, log: seq<seq<byte>>, k: nat)
    requires Held(rx, log) && k in rx.reorder
    ensures rx.receiveNext <= k < |log| && rx.reorder[k] == log[k]
  {
  }

  lemma DeliverOneGains(rx: Receiver, log: seq<seq<byte>>, read: seq<byte>)
    requires Held(rx, log) && Streamed(rx, log, read) && rx.receiveNext in rx.reorder
    ensures var rx' := DeliverOne(Unbounded, rx);
            Gains(rx, rx') && Held(rx', log) && Streamed(rx', log, read) && rx'.peerFinished == rx.peerFinished
  {
    DeliverOneStreams(rx, log, read);
  }

  lemma {:induction false} DeliveringGains(rx: Receiver, log: seq<seq<byte>>, read: seq<byte>)
    requires Held(rx, log) && Streamed(rx, log, read)
    ensures var rx' := DeliverWhileAllowed(Unbounded, rx);
            Gains(rx, rx') && Held(rx', log) && Streamed(rx', log, read) && rx'.peerFinished == rx.peerFinished
    decreases |rx.reorder|
  {
    if MayDeliver(rx) {
      DeliverOneGains(rx, log, read);
      DeliveringGains(DeliverOne(Unbounded, rx), log, read);
    }
  }

  lemma DeliverKeeps(t: Tuning, x: Peer, y: Peer)
    requires Flow(t, x, y) && Flow(t, y, x)
    ensures var m := EffectOf(Unbounded, t, x, Deliver); m.Moved? && Good(t, m.peer, y, m.sent)
  {
    DeliveringGains(x.end.rx, y.log, x.read);
    GainKeeps(t, y, x, DeliverInOrder(Unbounded, x.end.rx), x.read);
  }

  lemma AcknowledgeKeeps(t: Tuning, x: Peer, y: Peer)
    requires Flow(t, x, y) && Flow(t, y, x) && x.end.ackPending
    ensures var m := EffectOf(Unbounded, t, x, Acknowledge); m.Moved? && Good(t, m.peer, y, m.sent)
  {
    var rx := x.end.rx;
    var p := AckPacket(Unbounded, rx);
    forall k | 0 <= k < 64 && p.ackBits[k]
      ensures Has(rx, p.ack + 1 + k)
    {
      var q :| q in rx.reorder && Distance(Unbounded, q, rx.receiveNext) == k + 1;
    }
  }

  lemma ReadGains(rx: Receiver, log: seq<seq<byte>>, read: seq<byte>, wanted: nat)
    requires Held(rx, log) && Streamed(rx, log, read) && Readable(rx)
    ensures var rx' := AfterRead(rx, wanted);
            Gains(rx, rx') && Held(rx', log) && rx'.peerFinished == rx.peerFinished
    ensures Streamed(AfterRead(rx, wanted), log, read + ReadPart(rx, wanted))
  {
    var rx' := AfterRead(rx, wanted);
    assert rx.delivered[rx.deliveredConsumed..] == ReadPart(rx, wanted) + rx'.delivered[rx'.deliveredConsumed..];
  }

  lemma ReadKeeps(t: Tuning, x: Peer, y: Peer, wanted: nat)
    requires Flow(t, x, y) && Flow(t, y, x) && Readable(x.end.rx)
    ensures var m := EffectOf(Unbounded, t, x, Read(wanted)); m.Moved? && Good(t, m.peer, y, m.sent)
  {
    var rx := x.end.rx;
    ReadGains(rx, y.log, x.read, wanted);
    GainKeeps(t, y, x, AfterRead(rx, wanted), x.read + ReadPart(rx, wanted));
  }

  lemma WriteKeeps(t: Tuning, x: Peer, y: Peer, data: seq<byte>)
    requires Flow(t, x, y) && Flow(t, y, x) && !x.end.tx.sentFin
    ensures var m := EffectOf(Unbounded, t, x, StartWrite(data)); m.Moved? && Good(t, m.peer, y, m.sent)
  {
    var tx := x.end.tx;
    assert Queue(tx, data).outgoing[tx.outgoingConsumed..] == tx.outgoing[tx.outgoingConsumed..] + data;
  }

  // -- Every step, every run ------------------------------------------------

  lemma ActKeepsFlow(t: Tuning, x: Peer, y: Peer, action: Action)
    requires t.maxCwnd + 1.0 <= MAX_REORDER_PACKETS as real
    requires Flow(t, x, y) && Flow(t, y, x) && WindowOk(t, x.end.tx.window)
    ensures var m := EffectOf(Unbounded, t, x, action);
            && m != Failed(ReorderOverflow)
            && (m.Moved? ==> Good(t, m.peer, y, m.sent))
  {
    var m := EffectOf(Unbounded, t, x, action);
    if m.Disabled? { return; }
    match action
    case StartWrite(data) => WriteKeeps(t, x, y, data);
    case Fill(now) => FillKeeps(t, x, y, now);
    case Timeout(now) => TimeoutKeeps(t, x, y, now);
    case Receive(p, now) => ReceiveKeeps(t, x, y, p, now);
    case Deliver => DeliverKeeps(t, x, y);
    case Acknowledge => AcknowledgeKeeps(t, x, y);
    case Read(wanted) => ReadKeeps(t, x, y, wanted);
    case SendFin => NoBitsSound(ControlPacket(Fin, x.end.rx.receiveNext), x.end.rx);
    case _ =>
  }
}
