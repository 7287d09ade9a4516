/** The 32-bit protocol refines the unbounded one while no live datagram is
    older than half the sequence space. */
module UdpWrapping {
  import opened Bytes
  import opened SequenceNumbers
  import opened Congestion
  import opened UdpPackets
  import opened UdpSender
  import opened UdpReceiver
  import opened UdpSystem
  import opened UdpGuarantees

  // -- The 32-bit image of a state ------------------------------------------

  function Wrap(x: nat): nat { Reduce(Wrapping, x) }

  function WrapSent(p: SentPacket): SentPacket { p.(sequence := Wrap(p.sequence)) }

  function WrapUnacked(unacked: seq<SentPacket>): (image: seq<SentPacket>)
    ensures |image| == |unacked|
    ensures forall i :: 0 <= i < |unacked| ==> image[i] == WrapSent(unacked[i])
  {
    seq(|unacked|, i requires 0 <= i < |unacked| => WrapSent(unacked[i]))
  }

  function WrapSender(tx: Sender): Sender {
    tx.(unacked := WrapUnacked(tx.unacked), nextSequence := Wrap(tx.nextSequence), sendBase := Wrap(tx.sendBase))
  }

  /** Keys lie in one span of the sequence space starting at `base`. */
  predicate Spanned(m: map<nat, seq<byte>>, base: nat) {
    forall k :: k in m ==> base <= k < base + HALF
  }

  function Unwrap(base: nat, q: nat): nat { base + (q - base) % MODULUS }

  function WrapKeys(m: map<nat, seq<byte>>): set<nat> { set k | k in m :: Wrap(k) }

  function WrapMap(m: map<nat, seq<byte>>, base: nat): map<nat, seq<byte>> {
    map q | q in WrapKeys(m) && Unwrap(base, q) in m :: m[Unwrap(base, q)]
  }

  function WrapReceiver(rx: Receiver): Receiver {
    rx.(receiveNext := Wrap(rx.receiveNext), reorder := WrapMap(rx.reorder, rx.receiveNext))
  }

  function WrapPacket(p: Packet): Packet { p.(sequence := Wrap(p.sequence), ack := Wrap(p.ack)) }

  function WrapPackets(packets: seq<Packet>): (image: seq<Packet>)
    ensures |image| == |packets|
    ensures forall i :: 0 <= i < |packets| ==> image[i] == WrapPacket(packets[i])
  {
    seq(|packets|, i requires 0 <= i < |packets| => WrapPacket(packets[i]))
  }

  function WrapInbox(inbox: set<Packet>): set<Packet> { set p | p in inbox :: WrapPacket(p) }

  function WrapEnd(e: Endpoint): Endpoint { e.(tx := WrapSender(e.tx), rx := WrapReceiver(e.rx)) }

  function WrapPeer(x: Peer): Peer { x.(end := WrapEnd(x.end), inbox := WrapInbox(x.inbox)) }

  function WrapSystem(s: System): System { System(WrapPeer(s.left), WrapPeer(s.right)) }

  function WrapSending(o: Sending): Sending { o.(tx := WrapSender(o.tx), sent := WrapPackets(o.sent)) }

  // -- Sending --------------------------------------------------------------

  lemma WrapSucc(x: nat)
    ensures Wrap(Wrap(x) + 1) == Wrap(x + 1)
  {
  }

  lemma SendOneWraps(tx: Sender, now: nat)
    requires tx.outgoingConsumed < |tx.outgoing|
    ensures SendOne(Wrapping, WrapSender(tx), now) == WrapSender(SendOne(Unbounded, tx, now))
  {
    WrapSucc(tx.nextSequence);
    var next := SendOne(Unbounded, tx, now);
    assert WrapUnacked(next.unacked) == WrapUnacked(tx.unacked) + [WrapSent(NextPacket(tx, now))];
  }

  lemma {:induction false} SendingWraps(tx: Sender, ack: nat, now: nat)
    ensures SendWhileAllowed(Wrapping, WrapSender(tx), Wrap(ack), now)
         == WrapSending(SendWhileAllowed(Unbounded, tx, ack, now))
    decreases |tx.outgoing| - tx.outgoingConsumed
  {
    if MaySend(tx) {
      SendOneWraps(tx, now);
      SendingWraps(SendOne(Unbounded, tx, now), ack, now);
      var rest := SendWhileAllowed(Unbounded, SendOne(Unbounded, tx, now), ack, now).sent;
      var p := DataPacket(NextPacket(tx, now), ack);
      assert WrapPackets([p] + rest) == [WrapPacket(p)] + WrapPackets(rest);
    } else {
      assert WrapPackets([]) == [];
    }
  }

  lemma FillWraps(t: Tuning, tx: Sender, ack: nat, now: nat)
    ensures FillWindow(Wrapping, t, WrapSender(tx), Wrap(ack), now)
         == WrapSending(FillWindow(Unbounded, t, tx, ack, now))
  {
    SendingWraps(Refilled(t, tx, now), ack, now);
  }

  lemma TimeoutWraps(t: Tuning, tx: Sender, ack: nat, now: nat)
    ensures RetransmitTimedOut(t, WrapSender(tx), Wrap(ack), now)
         == WrapSending(RetransmitTimedOut(t, tx, ack, now))
  {
    var o := RetransmitTimedOut(t, tx, ack, now);
    assert WrapPackets([]) == [];
    if tx.unacked != [] {
      var oldest := Resent(tx.unacked[0], now);
      assert WrapUnacked(tx.unacked[0 := oldest]) == WrapUnacked(tx.unacked)[0 := WrapSent(oldest)];
      assert WrapPackets([DataPacket(oldest, ack)]) == [WrapPacket(DataPacket(oldest, ack))];
    }
  }

  // -- Acknowledgements -----------------------------------------------------

  predicate Near(a: nat, b: nat) { -HALF <= a - b < HALF }

  predicate AllNear(unacked: seq<SentPacket>, ack: nat) {
    forall i :: 0 <= i < |unacked| ==> Near(unacked[i].sequence, ack)
  }

  lemma DistanceWraps(a: nat, b: nat)
    requires Near(a, b)
    ensures Distance(Wrapping, Wrap(a), Wrap(b)) == Distance(Unbounded, a, b)
  {
    WireDistance(a, b);
  }

  lemma {:induction false} CoveredWraps(unacked: seq<SentPacket>, ack: nat)
    requires AllNear(unacked, ack)
    ensures Covered(Wrapping, WrapUnacked(unacked), Wrap(ack)) == Covered(Unbounded, unacked, ack)
  {
    if unacked != [] {
      DistanceWraps(unacked[0].sequence, ack);
      assert WrapUnacked(unacked)[1..] == WrapUnacked(unacked[1..]);
      CoveredWraps(unacked[1..], ack);
    }
  }

  lemma {:induction false} SamplesWrap(covered: seq<SentPacket>, now: nat)
    ensures Samples(WrapUnacked(covered), now) == Samples(covered, now)
  {
    if covered != [] {
      var most := covered[..|covered| - 1];
      assert WrapUnacked(covered)[..|covered| - 1] == WrapUnacked(most);
      SamplesWrap(most, now);
    }
  }

  lemma ReportedWraps(p: SentPacket, ack: nat, bits: seq<bool>)
    requires Near(p.sequence, ack)
    ensures Reported(Wrapping, WrapSent(p), Wrap(ack), bits) == Reported(Unbounded, p, ack, bits)
    ensures Mark(Wrapping, WrapSent(p), Wrap(ack), bits) == WrapSent(Mark(Unbounded, p, ack, bits))
  {
    DistanceWraps(p.sequence, ack);
  }

  lemma MarkWraps(unacked: seq<SentPacket>, ack: nat, bits: seq<bool>)
    requires AllNear(unacked, ack)
    ensures MarkAll(Wrapping, WrapUnacked(unacked), Wrap(ack), bits) == WrapUnacked(MarkAll(Unbounded, unacked, ack, bits))
  {
    forall i | 0 <= i < |unacked|
      ensures MarkAll(Wrapping, WrapUnacked(unacked), Wrap(ack), bits)[i]
           == WrapUnacked(MarkAll(Unbounded, unacked, ack, bits))[i]
    {
      ReportedWraps(unacked[i], ack, bits);
    }
  }

  lemma {:induction false} CountsWrap(unacked: seq<SentPacket>, ack: nat, bits: seq<bool>)
    requires AllNear(unacked, ack)
    ensures CountReported(Wrapping, WrapUnacked(unacked), Wrap(ack), bits) == CountReported(Unbounded, unacked, ack, bits)
    ensures CountNew(Wrapping, WrapUnacked(unacked), Wrap(ack), bits) == CountNew(Unbounded, unacked, ack, bits)
  {
    if unacked != [] {
      var most := unacked[..|unacked| - 1];
      assert WrapUnacked(unacked)[..|unacked| - 1] == WrapUnacked(most);
      ReportedWraps(unacked[|unacked| - 1], ack, bits);
      CountsWrap(most, ack, bits);
    }
  }

  /** The two parts an acknowledgement splits the unacknowledged packets into. */
  lemma SplitWraps(unacked: seq<SentPacket>, ack: nat)
    requires AllNear(unacked, ack)
    ensures var n := Covered(Unbounded, unacked, ack);
            && Covered(Wrapping, WrapUnacked(unacked), Wrap(ack)) == n
            && WrapUnacked(unacked)[n..] == WrapUnacked(unacked[n..])
            && WrapUnacked(unacked)[..n] == WrapUnacked(unacked[..n])
            && AllNear(unacked[n..], ack)
  {
    CoveredWraps(unacked, ack);
  }

  function WrapDigest(d: Digest): Digest { d.(left := WrapUnacked(d.left)) }

  lemma DigestWraps(unacked: seq<SentPacket>, ack: nat, bits: seq<bool>, now: nat)
    requires AllNear(unacked, ack)
    ensures DigestOf(Wrapping, WrapUnacked(unacked), Wrap(ack), bits, now) == WrapDigest(DigestOf(Unbounded, unacked, ack, bits, now))
  {
    SplitWraps(unacked, ack);
    var n := Covered(Unbounded, unacked, ack);
    SamplesWrap(unacked[..n], now);
    MarkWraps(unacked[n..], ack, bits);
    CountsWrap(unacked[n..], ack, bits);
  }

  lemma AbsorbWraps(t: Tuning, tx: Sender, ack: nat, d: Digest)
    ensures Absorb(t, WrapSender(tx), Wrap(ack), WrapDigest(d)) == WrapSender(Absorb(t, tx, ack, d))
  {
  }

  lemma FastRetransmitWraps(t: Tuning, tx: Sender, beyond: nat, own: nat, now: nat)
    ensures FastRetransmit(t, WrapSender(tx), beyond, Wrap(own), now) == WrapSending(FastRetransmit(t, tx, beyond, own, now))
  {
    assert WrapPackets([]) == [];
    if tx.unacked != [] {
      var missing := Resent(tx.unacked[0], now);
      assert WrapUnacked(tx.unacked[0 := missing]) == WrapUnacked(tx.unacked)[0 := WrapSent(missing)];
      assert WrapPackets([DataPacket(missing, own)]) == [WrapPacket(DataPacket(missing, own))];
    }
  }

  lemma RespondWraps(t: Tuning, tx: Sender, ack: nat, d: Digest, own: nat, now: nat)
    ensures Respond(t, WrapSender(tx), Wrap(ack), WrapDigest(d), Wrap(own), now) == WrapSending(Respond(t, tx, ack, d, own, now))
  {
    AbsorbWraps(t, tx, ack, d);
    FastRetransmitWraps(t, Absorb(t, tx, ack, d), d.beyond, own, now);
  }

  lemma ProcessAckWraps(t: Tuning, tx: Sender, ack: nat, bits: seq<bool>, own: nat, now: nat)
    requires AllNear(tx.unacked, ack)
    ensures ProcessAck(Wrapping, t, WrapSender(tx), Wrap(ack), bits, Wrap(own), now)
         == WrapSending(ProcessAck(Unbounded, t, tx, ack, bits, own, now))
  {
    DigestWraps(tx.unacked, ack, bits, now);
    RespondWraps(t, tx, ack, DigestOf(Unbounded, tx.unacked, ack, bits, now), own, now);
  }

  // -- Receiving ------------------------------------------------------------

  lemma UnwrapWrap(base: nat, k: nat)
    requires base <= k < base + MODULUS
    ensures Unwrap(base, Wrap(k)) == k
  {
    ModShift(k - base, k / MODULUS);
    assert Wrap(k) - base == (k - base) - MODULUS * (k / MODULUS);
  }

  /** The wrapped buffer answers for every key within the span. */
  lemma WrapMapAt(m: map<nat, seq<byte>>, base: nat, k: nat)
    requires Spanned(m, base) && base <= k < base + MODULUS
    ensures Wrap(k) in WrapMap(m, base) <==> k in m
    ensures k in m ==> WrapMap(m, base)[Wrap(k)] == m[k]
  {
    UnwrapWrap(base, k);
  }

  lemma WrapMapKeys(m: map<nat, seq<byte>>, base: nat, q: nat) returns (k: nat)
    requires Spanned(m, base) && q in WrapMap(m, base)
    ensures k in m && Wrap(k) == q && WrapMap(m, base)[q] == m[k]
  {
    k :| k in m && Wrap(k) == q;
    UnwrapWrap(base, k);
  }

  /** A map with the wrapped keys that agrees on the image of every key of `m`
      is the wrapped map. */
  lemma IsWrapMap(m: map<nat, seq<byte>>, base: nat, w: map<nat, seq<byte>>)
    requires Spanned(m, base)
    requires w.Keys == WrapKeys(m)
    requires forall k :: k in m ==> w[Wrap(k)] == m[k]
    ensures w == WrapMap(m, base)
  {
    var image := WrapMap(m, base);
    forall q | q in w.Keys
      ensures q in image.Keys && image[q] == w[q]
    {
      var k :| k in m && Wrap(k) == q;
      WrapMapAt(m, base, k);
    }
    assert image.Keys <= WrapKeys(m);
  }

  lemma WrapMapDomain(m: map<nat, seq<byte>>, base: nat)
    requires Spanned(m, base)
    ensures WrapMap(m, base).Keys == WrapKeys(m)
  {
    forall q | q in WrapKeys(m)
      ensures q in WrapMap(m, base)
    {
      var k :| k in m && Wrap(k) == q;
      WrapMapAt(m, base, k);
    }
  }

  lemma {:induction false} WrapMapSize(m: map<nat, seq<byte>>, base: nat)
    requires Spanned(m, base)
    ensures |WrapMap(m, base)| == |m|
    decreases |m|
  {
    if |m| == 0 {
      assert WrapMap(m, base) == map[];
    } else {
      var k :| k in m;
      var rest := m - {k};
      assert m.Keys == rest.Keys + {k};
      WrapMapSize(rest, base);
      WrapMapRemove(m, base, k);
      WrapMapAt(m, base, k);
      var image := WrapMap(m, base);
      assert image.Keys == (image - {Wrap(k)}).Keys + {Wrap(k)};
    }
  }

  lemma WrapMapRemove(m: map<nat, seq<byte>>, base: nat, k: nat)
    requires Spanned(m, base) && k in m
    ensures WrapMap(m, base) - {Wrap(k)} == WrapMap(m - {k}, base)
  {
    var w := WrapMap(m, base) - {Wrap(k)};
    WrapMapDomain(m, base);
    forall j | j in m && j != k
      ensures Wrap(j) != Wrap(k) && Wrap(j) in WrapMap(m, base) && WrapMap(m, base)[Wrap(j)] == m[j]
    {
      WrapMapAt(m, base, j);
      if Wrap(j) == Wrap(k) {
        ReduceInjective(j, k);
      }
    }
    assert w.Keys == WrapKeys(m - {k}) by {
      forall q | q in w.Keys
        ensures q in WrapKeys(m - {k})
      {
        var j :| j in m && Wrap(j) == q;
        assert j in m - {k};
      }
      assert forall j :: j in m - {k} ==> Wrap(j) in w.Keys;
    }
    IsWrapMap(m - {k}, base, w);
  }

  lemma WrapMapAdd(m: map<nat, seq<byte>>, base: nat, k: nat, payload: seq<byte>)
    requires Spanned(m, base) && base <= k < base + HALF
    ensures WrapMap(m, base)[Wrap(k) := payload] == WrapMap(m[k := payload], base)
  {
    var w := WrapMap(m, base)[Wrap(k) := payload];
    var more := m[k := payload];
    WrapMapDomain(m, base);
    forall j | j in more
      ensures Wrap(j) in w && w[Wrap(j)] == more[j]
    {
      if j != k {
        WrapMapAt(m, base, j);
        if Wrap(j) == Wrap(k) {
          ReduceInjective(j, k);
        }
      }
    }
    assert w.Keys == WrapKeys(more) by {
      forall q | q in w.Keys
        ensures q in WrapKeys(more)
      {
        if q == Wrap(k) {
          assert k in more;
        } else {
          var j :| j in m && Wrap(j) == q;
          assert j in more;
        }
      }
    }
    IsWrapMap(more, base, w);
  }

  /** The choice of base inside the span does not matter. */
  lemma WrapMapRebase(m: map<nat, seq<byte>>, base: nat, base': nat)
    requires Spanned(m, base) && Spanned(m, base')
    ensures WrapMap(m, base) == WrapMap(m, base')
  {
    WrapMapDomain(m, base);
    forall k | k in m
      ensures WrapMap(m, base)[Wrap(k)] == m[k]
    {
      WrapMapAt(m, base, k);
    }
    IsWrapMap(m, base', WrapMap(m, base));
  }

  lemma HoldWraps(rx: Receiver, p: Packet)
    requires Spanned(rx.reorder, rx.receiveNext) && Near(p.sequence, rx.receiveNext)
    ensures Hold(Wrapping, WrapReceiver(rx), WrapPacket(p)) == WrapReceiver(Hold(Unbounded, rx, p))
    ensures Overflows(Wrapping, WrapReceiver(rx), WrapPacket(p)) == Overflows(Unbounded, rx, p)
  {
    DistanceWraps(p.sequence, rx.receiveNext);
    WrapMapSize(rx.reorder, rx.receiveNext);
    if p.sequence >= rx.receiveNext {
      WrapMapAt(rx.reorder, rx.receiveNext, p.sequence);
      WrapMapAdd(rx.reorder, rx.receiveNext, p.sequence, p.payload);
    }
  }

  lemma NextWraps(rx: Receiver)
    requires Spanned(rx.reorder, rx.receiveNext)
    ensures WrapReceiver(rx).receiveNext in WrapReceiver(rx).reorder <==> rx.receiveNext in rx.reorder
    ensures MayDeliver(WrapReceiver(rx)) == MayDeliver(rx)
  {
    WrapMapAt(rx.reorder, rx.receiveNext, rx.receiveNext);
  }

  lemma RemainderWraps(m: map<nat, seq<byte>>, k: nat)
    requires Spanned(m, k) && k in m
    ensures Spanned(m - {k}, k + 1)
    ensures WrapMap(m, k) - {Wrap(k)} == WrapMap(m - {k}, k + 1)
  {
    WrapMapRemove(m, k, k);
    WrapMapRebase(m - {k}, k, k + 1);
  }

  lemma DeliverOneWraps(rx: Receiver)
    requires Spanned(rx.reorder, rx.receiveNext) && rx.receiveNext in rx.reorder
    requires WrapReceiver(rx).receiveNext in WrapReceiver(rx).reorder
    ensures DeliverOne(Wrapping, WrapReceiver(rx)) == WrapReceiver(DeliverOne(Unbounded, rx))
  {
    var next, image := DeliverOne(Unbounded, rx), DeliverOne(Wrapping, WrapReceiver(rx));
    assert image.receiveNext == Wrap(next.receiveNext) by { WrapSucc(rx.receiveNext); }
    assert image.reorder == WrapMap(next.reorder, next.receiveNext) by { RemainderWraps(rx.reorder, rx.receiveNext); }
    assert image.delivered == next.delivered by { WrapMapAt(rx.reorder, rx.receiveNext, rx.receiveNext); }
  }

  lemma {:induction false} DeliveringWraps(rx: Receiver)
    requires Spanned(rx.reorder, rx.receiveNext)
    ensures DeliverWhileAllowed(Wrapping, WrapReceiver(rx)) == WrapReceiver(DeliverWhileAllowed(Unbounded, rx))
    decreases |rx.reorder|
  {
    NextWraps(rx);
    if MayDeliver(rx) {
      DeliverOneWraps(rx);
      RemainderWraps(rx.reorder, rx.receiveNext);
      DeliveringWraps(DeliverOne(Unbounded, rx));
    }
  }

  lemma DeliverWraps(rx: Receiver)
    requires Spanned(rx.reorder, rx.receiveNext)
    ensures DeliverInOrder(Wrapping, WrapReceiver(rx)) == WrapReceiver(DeliverInOrder(Unbounded, rx))
  {
    DeliveringWraps(rx);
  }

  lemma AckWraps(rx: Receiver)
    requires Spanned(rx.reorder, rx.receiveNext)
    ensures AckPacket(Wrapping, WrapReceiver(rx)) == WrapPacket(AckPacket(Unbounded, rx))
  {
    var image := WrapReceiver(rx);
    forall k | 0 <= k < 64
      ensures Holds(Wrapping, image, k) == Holds(Unbounded, rx, k)
    {
      HoldsWraps(rx, k);
    }
    assert AckBits(Wrapping, image) == AckBits(Unbounded, rx);
  }

  lemma HoldsWraps(rx: Receiver, k: nat)
    requires Spanned(rx.reorder, rx.receiveNext) && k < 64
    ensures Holds(Wrapping, WrapReceiver(rx), k) == Holds(Unbounded, rx, k)
  {
    var image := WrapReceiver(rx);
    if q :| q in image.reorder && Distance(Wrapping, q, image.receiveNext) == k + 1 {
      var j := WrapMapKeys(rx.reorder, rx.receiveNext, q);
      DistanceWraps(j, rx.receiveNext);
      assert Distance(Unbounded, j, rx.receiveNext) == k + 1;
    }
    if j :| j in rx.reorder && Distance(Unbounded, j, rx.receiveNext) == k + 1 {
      WrapMapAt(rx.reorder, rx.receiveNext, j);
      DistanceWraps(j, rx.receiveNext);
      assert Distance(Wrapping, Wrap(j), image.receiveNext) == k + 1;
    }
  }

  // -- Whole steps ----------------------------------------------------------

  /** A datagram on its way to `e` is younger than half the sequence space. */
  predicate Recent(p: Packet, e: Endpoint) {
    && e.tx.nextSequence - p.ack <= HALF
    && (p.kind.Data? ==> e.rx.receiveNext - p.sequence <= HALF)
  }

  predicate Live(s: System) {
    && (forall p :: p in s.left.inbox ==> Recent(p, s.left.end))
    && (forall p :: p in s.right.inbox ==> Recent(p, s.right.end))
  }

  function WrapEffect(m: Effect): Effect {
    if m.Moved? then Moved(WrapPeer(m.peer), WrapPackets(m.sent)) else m
  }

  lemma FlowSpans(t: Tuning, x: Peer, y: Peer)
    requires Usable(t) && Flow(t, x, y)
    ensures Spanned(y.end.rx.reorder, y.end.rx.receiveNext)
  {
  }

  lemma FlowNear(t: Tuning, x: Peer, y: Peer, p: Packet)
    requires Usable(t) && Flow(t, x, y) && Flow(t, y, x) && p in x.inbox && Recent(p, x.end)
    ensures AllNear(x.end.tx.unacked, p.ack)
    ensures p.kind.Data? ==> Near(p.sequence, x.end.rx.receiveNext)
  {
    assert AckSound(p, y.end.rx);
    assert Carries(p, y.log, y.end.tx.sentFin);
  }

  function WrapOutcome(o: Outcome): Outcome {
    o.(end := WrapEnd(o.end), sent := WrapPackets(o.sent))
  }

  lemma AcceptWraps(e: Endpoint, acked: Sending, p: Packet)
    requires p.kind.Data? ==> Spanned(e.rx.reorder, e.rx.receiveNext) && Near(p.sequence, e.rx.receiveNext)
    ensures Accept(Wrapping, WrapEnd(e), WrapSending(acked), WrapPacket(p)) == WrapOutcome(Accept(Unbounded, e, acked, p))
  {
    if p.kind.Data? {
      HoldWraps(e.rx, p);
    } else if p.kind.Fin? {
      var c := ControlPacket(FinAck, e.rx.receiveNext);
      assert WrapPackets(acked.sent + [c]) == WrapPackets(acked.sent) + [WrapPacket(c)];
    }
  }

  lemma ProcessPacketWraps(t: Tuning, x: Peer, y: Peer, p: Packet, now: nat)
    requires Usable(t) && Flow(t, x, y) && Flow(t, y, x) && p in x.inbox && Recent(p, x.end)
    ensures ProcessPacket(Wrapping, t, WrapEnd(x.end), WrapPacket(p), now)
         == WrapOutcome(ProcessPacket(Unbounded, t, x.end, p, now))
  {
    FlowNear(t, x, y, p);
    FlowSpans(t, y, x);
    ProcessAckWraps(t, x.end.tx, p.ack, p.ackBits, x.end.rx.receiveNext, now);
    AcceptWraps(x.end, ProcessAck(Unbounded, t, x.end.tx, p.ack, p.ackBits, x.end.rx.receiveNext, now), p);
  }

  lemma ReceiveWraps(t: Tuning, x: Peer, y: Peer, p: Packet, now: nat)
    requires Usable(t) && Flow(t, x, y) && Flow(t, y, x) && p in x.inbox && Recent(p, x.end)
    ensures EffectOf(Wrapping, t, WrapPeer(x), Receive(WrapPacket(p), now))
         == WrapEffect(EffectOf(Unbounded, t, x, Receive(p, now)))
  {
    ProcessPacketWraps(t, x, y, p, now);
    FlowNear(t, x, y, p);
    DigestWraps(x.end.tx.unacked, p.ack, p.ackBits, now);
    ReceiptWraps(t, x, p, now);
  }

  lemma ReceiptWraps(t: Tuning, x: Peer, p: Packet, now: nat)
    requires p in x.inbox
    requires ProcessPacket(Wrapping, t, WrapEnd(x.end), WrapPacket(p), now)
          == WrapOutcome(ProcessPacket(Unbounded, t, x.end, p, now))
    requires DigestOf(Wrapping, WrapUnacked(x.end.tx.unacked), Wrap(p.ack), p.ackBits, now).samples
          == DigestOf(Unbounded, x.end.tx.unacked, p.ack, p.ackBits, now).samples
    ensures EffectOf(Wrapping, t, WrapPeer(x), Receive(WrapPacket(p), now))
         == WrapEffect(EffectOf(Unbounded, t, x, Receive(p, now)))
  {
    ReceivedWraps(x, ProcessPacket(Unbounded, t, x.end, p, now), DigestOf(Unbounded, x.end.tx.unacked, p.ack, p.ackBits, now).samples);
  }

  lemma ReceivedWraps(x: Peer, o: Outcome, samples: seq<nat>)
    ensures Received(WrapPeer(x), WrapOutcome(o), samples) == WrapEffect(Received(x, o, samples))
  {
  }

  lemma FilledWraps(x: Peer, o: Sending, accrued: real)
    ensures Filled(WrapPeer(x), WrapSending(o), accrued) == WrapEffect(Filled(x, o, accrued))
  {
    assert Payloads(WrapPackets(o.sent)) == Payloads(o.sent);
  }

  lemma FillEffectWraps(t: Tuning, x: Peer, now: nat)
    ensures EffectOf(Wrapping, t, WrapPeer(x), Fill(now)) == WrapEffect(EffectOf(Unbounded, t, x, Fill(now)))
  {
    FillWraps(t, x.end.tx, x.end.rx.receiveNext, now);
    FilledWraps(x, FillWindow(Unbounded, t, x.end.tx, x.end.rx.receiveNext, now), Accrued(x.end.tx, now));
  }

  /** An action of the wire protocol and the unbounded action it stands for. */
  predicate Counterpart(x: Peer, wire: Action, action: Action) {
    match wire
    case Receive(q, now) => action.Receive? && action.at == now && action.packet in x.inbox && WrapPacket(action.packet) == q
    case Lose(kept) => action.Lose? && action.kept <= x.inbox && WrapInbox(action.kept) == kept
    case _ => action == wire
  }

  lemma FindCounterpart(t: Tuning, x: Peer, wire: Action) returns (action: Action)
    requires EffectOf(Wrapping, t, WrapPeer(x), wire).Moved?
    ensures Counterpart(x, wire, action)
  {
    match wire
    case Receive(q, now) =>
      var p :| p in x.inbox && WrapPacket(p) == q;
      action := Receive(p, now);
    case Lose(kept) =>
      var mine := set p | p in x.inbox && WrapPacket(p) in kept;
      assert WrapInbox(mine) == kept by {
        forall q | q in kept
          ensures q in WrapInbox(mine)
        {
          var p :| p in x.inbox && WrapPacket(p) == q;
          assert p in mine;
        }
      }
      action := Lose(mine);
    case _ => action := wire;
  }

  /** One wire operation is the image of the unbounded one. */
  lemma ActWraps(t: Tuning, x: Peer, y: Peer, wire: Action, action: Action)
    requires Usable(t) && Flow(t, x, y) && Flow(t, y, x) && Counterpart(x, wire, action)
    requires forall p :: p in x.inbox ==> Recent(p, x.end)
    ensures EffectOf(Wrapping, t, WrapPeer(x), wire) == WrapEffect(EffectOf(Unbounded, t, x, action))
  {
    if action.Receive? {
      ReceiveWraps(t, x, y, action.packet, action.at);
    } else if action.Fill? {
      FillEffectWraps(t, x, action.now);
    } else if action.Deliver? || action.Acknowledge? {
      FlowSpans(t, y, x);
      ReceiverActWraps(t, x, action);
    } else {
      OtherActWraps(t, x, wire, action);
    }
  }

  lemma ReceiverActWraps(t: Tuning, x: Peer, action: Action)
    requires action.Deliver? || action.Acknowledge?
    requires Spanned(x.end.rx.reorder, x.end.rx.receiveNext)
    ensures EffectOf(Wrapping, t, WrapPeer(x), action) == WrapEffect(EffectOf(Unbounded, t, x, action))
  {
    var rx := x.end.rx;
    DeliverWraps(rx);
    AckWraps(rx);
    assert WrapPackets([]) == [];
    assert WrapPackets([AckPacket(Unbounded, rx)]) == [WrapPacket(AckPacket(Unbounded, rx))];
  }

  lemma OtherActWraps(t: Tuning, x: Peer, wire: Action, action: Action)
    requires Counterpart(x, wire, action)
    requires !action.Receive? && !action.Fill? && !action.Deliver? && !action.Acknowledge?
    ensures EffectOf(Wrapping, t, WrapPeer(x), wire) == WrapEffect(EffectOf(Unbounded, t, x, action))
  {
    assert WrapPackets([]) == [];
    if action.Timeout? {
      TimeoutWraps(t, x.end.tx, x.end.rx.receiveNext, action.now);
    } else if action.SendFin? {
      var c := ControlPacket(Fin, x.end.rx.receiveNext);
      assert WrapPackets([c]) == [WrapPacket(c)];
    }
  }

  lemma HearsWraps(y: Peer, sent: seq<Packet>)
    ensures Hears(WrapPeer(y), WrapPackets(sent)) == WrapPeer(Hears(y, sent))
  {
    var image := WrapPackets(sent);
    assert (set q | q in image) == WrapInbox(set p | p in sent) by {
      forall q | q in image
        ensures q in WrapInbox(set p | p in sent)
      {
        var i :| 0 <= i < |image| && image[i] == q;
        assert sent[i] in sent;
      }
      forall q | q in WrapInbox(set p | p in sent)
        ensures q in image
      {
        var p :| p in sent && WrapPacket(p) == q;
        var i :| 0 <= i < |sent| && sent[i] == p;
        assert image[i] == q;
      }
    }
  }

  lemma ActRefines(t: Tuning, x: Peer, y: Peer, wire: Action, cx: Peer, cy: Peer) returns (x': Peer, y': Peer, action: Action)
    requires Usable(t) && Flow(t, x, y) && Flow(t, y, x)
    requires forall p :: p in x.inbox ==> Recent(p, x.end)
    requires Acts(Wrapping, t, WrapPeer(x), WrapPeer(y), wire, cx, cy)
    ensures Acts(Unbounded, t, x, y, action, x', y')
    ensures cx == WrapPeer(x') && cy == WrapPeer(y')
  {
    action := FindCounterpart(t, x, wire);
    ActWraps(t, x, y, wire, action);
    var m := EffectOf(Unbounded, t, x, action);
    x', y' := m.peer, Hears(y, m.sent);
    HearsWraps(y, m.sent);
  }

  lemma StepRefines(t: Tuning, s: System, c: System) returns (s': System)
    requires Usable(t) && Reachable(Unbounded, t, s) && Live(s) && Step(Wrapping, t, WrapSystem(s), c)
    ensures Step(Unbounded, t, s, s') && c == WrapSystem(s')
  {
    ReachableInv(t, s);
    var w := WrapSystem(s);
    if wire :| Acts(Wrapping, t, w.left, w.right, wire, c.left, c.right) {
      var x, y, action := ActRefines(t, s.left, s.right, wire, c.left, c.right);
      s' := System(x, y);
      assert Acts(Unbounded, t, s.left, s.right, action, s'.left, s'.right);
    } else {
      var wire :| Acts(Wrapping, t, w.right, w.left, wire, c.right, c.left);
      var y, x, action := ActRefines(t, s.right, s.left, wire, c.right, c.left);
      s' := System(x, y);
      assert Acts(Unbounded, t, s.right, s.left, action, s'.right, s'.left);
    }
  }

  // -- Whole runs -----------------------------------------------------------

  /** `run` is an unbounded run whose 32-bit image is a prefix of `wire`. */
  ghost predicate Explains(t: Tuning, wire: seq<System>, run: seq<System>) {
    && IsRun(Unbounded, t, run)
    && |run| <= |wire|
    && forall i :: 0 <= i < |run| ==> ImageAt(wire, run, i)
  }

  predicate ImageAt(wire: seq<System>, run: seq<System>, i: nat)
    requires i < |run| && i < |wire|
  {
    wire[i] == WrapSystem(run[i])
  }

  lemma ExplainStart(t: Tuning, wire: seq<System>)
    requires IsRun(Wrapping, t, wire)
    ensures Explains(t, wire, [wire[0]])
  {
    StrayWraps(wire[0].left.inbox);
    StrayWraps(wire[0].right.inbox);
    assert WrapUnacked([]) == [];
    assert WrapMap(map[], 0) == map[];
    assert ImageAt(wire, [wire[0]], 0);
  }

  lemma NextExplained(t: Tuning, wire: seq<System>, run: seq<System>) returns (next: System)
    requires Usable(t) && IsRun(Wrapping, t, wire) && Explains(t, wire, run) && |run| < |wire|
    requires Live(run[|run| - 1])
    ensures Step(Unbounded, t, run[|run| - 1], next) && wire[|run|] == WrapSystem(next)
  {
    var last := |run| - 1;
    assert ImageAt(wire, run, last);
    assert StepAt(Wrapping, t, wire, last);
    next := StepRefines(t, run[last], wire[last + 1]);
  }

  lemma ExplainOneMore(t: Tuning, wire: seq<System>, run: seq<System>) returns (longer: seq<System>)
    requires Usable(t) && IsRun(Wrapping, t, wire) && Explains(t, wire, run) && |run| < |wire|
    requires Live(run[|run| - 1])
    ensures Explains(t, wire, longer) && |longer| == |run| + 1
  {
    var next := NextExplained(t, wire, run);
    longer := Extended(t, run, next);
    ImagesExtend(wire, run, next);
  }

  lemma ImagesExtend(wire: seq<System>, run: seq<System>, next: System)
    requires |run| < |wire| && wire[|run|] == WrapSystem(next)
    requires forall i :: 0 <= i < |run| ==> ImageAt(wire, run, i)
    ensures forall i :: 0 <= i < |run| + 1 ==> ImageAt(wire, run + [next], i)
  {
    forall i | 0 <= i < |run| + 1
      ensures ImageAt(wire, run + [next], i)
    {
      if i < |run| {
        assert ImageAt(wire, run, i);
      }
    }
  }

  /** Every run of the 32-bit protocol is the image of an unbounded run, up to the
      first state, if any, that holds a datagram older than half the space. */
  lemma {:induction false} WireRunRefines(t: Tuning, wire: seq<System>, n: nat) returns (run: seq<System>)
    requires Usable(t) && IsRun(Wrapping, t, wire) && 1 <= n <= |wire|
    ensures Explains(t, wire, run)
    ensures |run| == n || (|run| < n && !Live(run[|run| - 1]))
  {
    if n == 1 {
      run := [wire[0]];
      ExplainStart(t, wire);
    } else {
      run := WireRunRefines(t, wire, n - 1);
      if |run| == n - 1 && Live(run[n - 2]) {
        run := ExplainOneMore(t, wire, run);
      }
    }
  }

  lemma Extended(t: Tuning, run: seq<System>, next: System) returns (longer: seq<System>)
    requires IsRun(Unbounded, t, run) && Step(Unbounded, t, run[|run| - 1], next)
    ensures longer == run + [next] && IsRun(Unbounded, t, longer)
  {
    longer := run + [next];
    forall i | 0 <= i < |longer| - 1
      ensures StepAt(Unbounded, t, longer, i)
    {
      if i < |run| - 1 {
        assert StepAt(Unbounded, t, run, i);
      }
    }
  }

  lemma StrayWraps(inbox: set<Packet>)
    requires forall p :: p in inbox ==> Stray(p)
    ensures WrapInbox(inbox) == inbox
  {
    assert forall p :: p in inbox ==> WrapPacket(p) == p;
  }

  /** Hence the wire stream itself is faithful: after any number of wraps, what is
      read is a prefix of what was written, unless a stale datagram was live. */
  lemma WireReadsArePrefixOfWrites(t: Tuning, wire: seq<System>, i: nat)
    requires Usable(t) && IsRun(Wrapping, t, wire) && i < |wire|
    ensures
      || (wire[i].right.read <= wire[i].left.written && wire[i].left.read <= wire[i].right.written)
      || exists run :: Explains(t, wire, run) && |run| <= i && !Live(run[|run| - 1])
  {
    var run := WireRunRefines(t, wire, i + 1);
    if |run| == i + 1 {
      ReadsArePrefixOfWrites(t, run, i);
      assert ImageAt(wire, run, i);
    } else {
      assert Explains(t, wire, run);
    }
  }

  /** Exactly which already delivered packets the wire comparison still discards. */
  lemma StaleDiscarded(sequence: nat, receiveNext: nat)
    requires sequence < receiveNext
    ensures Distance(Wrapping, Wrap(sequence), Wrap(receiveNext)) < 0
       <==> 0 < (receiveNext - sequence) % MODULUS <= HALF
  {
    var a, b := sequence, receiveNext;
    assert (Wrap(a) - Wrap(b)) % MODULUS == (a - b) % MODULUS by {
      ModShift(a - b, a / MODULUS - b / MODULUS);
      assert Wrap(a) - Wrap(b) == (a - b) - MODULUS * (a / MODULUS - b / MODULUS);
    }
    Negated(b - a);
  }

  lemma Negated(x: int)
    ensures (-x) % MODULUS == if x % MODULUS == 0 then 0 else MODULUS - x % MODULUS
  {
    var q, r := x / MODULUS, x % MODULUS;
    if r == 0 {
      ModShift(-x, -q);
      assert -x - MODULUS * (-q) == 0;
    } else {
      ModShift(-x, -q - 1);
      assert -x - MODULUS * (-q - 1) == MODULUS - r;
    }
  }

  lemma LoneDelivery(payload: seq<byte>)
    ensures DeliverInOrder(Wrapping, Receiver(0, map[0 := payload], [], 0, false)).delivered == payload
  {
    var held := Receiver(0, map[0 := payload], [], 0, false);
    var next := DeliverOne(Wrapping, held);
    assert next.reorder == map[];
    assert DeliverWhileAllowed(Wrapping, held) == next;
  }

  /** The recency assumption is needed: a copy of packet 0 that survives a whole
      turn of the counter is taken for new data. The receiver's state is written
      down, not reached by a run. */
  lemma StaleDatagramAccepted(payload: seq<byte>)
    ensures var rx := INITIAL_RECEIVER.(receiveNext := MODULUS);
            var stale := Packet(Data, 0, 0, NoBits(), payload);
            && Hold(Unbounded, rx, stale) == rx
            && DeliverInOrder(Wrapping, Hold(Wrapping, WrapReceiver(rx), WrapPacket(stale))).delivered == payload
  {
    var rx := INITIAL_RECEIVER.(receiveNext := MODULUS);
    var stale := Packet(Data, 0, 0, NoBits(), payload);
    assert WrapMap(map[], MODULUS) == map[];
    assert Hold(Wrapping, WrapReceiver(rx), WrapPacket(stale)) == Receiver(0, map[0 := payload], [], 0, false);
    LoneDelivery(payload);
  }
}
