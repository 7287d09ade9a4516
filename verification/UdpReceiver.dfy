/** The receiving half of an endpoint. */
module UdpReceiver {
  import opened Bytes
  import opened SequenceNumbers
  import opened UdpPackets

  const MAX_REORDER_PACKETS: nat := 16384
  const MAX_DELIVERED_BACKLOG: nat := 8 * 1024 * 1024

  datatype Receiver = Receiver(
    receiveNext: nat, reorder: map<nat, seq<byte>>,
    delivered: seq<byte>, deliveredConsumed: nat, peerFinished: bool)

  const INITIAL_RECEIVER := Receiver(0, map[], [], 0, false)

  predicate Overflows(w: Width, rx: Receiver, p: Packet) {
    Distance(w, p.sequence, rx.receiveNext) >= 0 && |rx.reorder| >= MAX_REORDER_PACKETS
  }

  /** Take in a data packet; one already delivered or already held changes nothing. */
  function Hold(w: Width, rx: Receiver, p: Packet): Receiver {
    if Distance(w, p.sequence, rx.receiveNext) < 0 || p.sequence in rx.reorder then rx
    else rx.(reorder := rx.reorder[p.sequence := p.payload])
  }

  predicate MayDeliver(rx: Receiver) {
    |rx.delivered| - rx.deliveredConsumed < MAX_DELIVERED_BACKLOG && rx.receiveNext in rx.reorder
  }

  function DeliverOne(w: Width, rx: Receiver): (next: Receiver)
    requires rx.receiveNext in rx.reorder
    ensures |next.reorder| < |rx.reorder|
  {
    assert rx.reorder.Keys == (rx.reorder - {rx.receiveNext}).Keys + {rx.receiveNext};
    rx.(delivered := rx.delivered + rx.reorder[rx.receiveNext],
        reorder := rx.reorder - {rx.receiveNext},
        receiveNext := Reduce(w, rx.receiveNext + 1))
  }

  function DeliverWhileAllowed(w: Width, rx: Receiver): Receiver
    decreases |rx.reorder|
  {
    if !MayDeliver(rx) then rx else DeliverWhileAllowed(w, DeliverOne(w, rx))
  }

  function Compact(rx: Receiver): Receiver {
    if 0 < rx.deliveredConsumed <= |rx.delivered| && rx.deliveredConsumed >= |rx.delivered| / 2
    then rx.(delivered := rx.delivered[rx.deliveredConsumed..], deliveredConsumed := 0)
    else rx
  }

  function DeliverInOrder(w: Width, rx: Receiver): Receiver { Compact(DeliverWhileAllowed(w, rx)) }

  /** Bit `k` of the bitmap: something held lies `k + 1` past the gap. */
  predicate Holds(w: Width, rx: Receiver, k: nat) {
    exists q | q in rx.reorder :: Distance(w, q, rx.receiveNext) == k + 1
  }

  function AckBits(w: Width, rx: Receiver): (bits: seq<bool>)
    ensures |bits| == 64
    ensures forall k :: 0 <= k < 64 ==> bits[k] == Holds(w, rx, k)
  {
    seq(64, k requires 0 <= k < 64 => Holds(w, rx, k))
  }

  function AckPacket(w: Width, rx: Receiver): Packet {
    Packet(Ack, 0, rx.receiveNext, AckBits(w, rx), [])
  }

  // -- The application's side ----------------------------------------------

  /** Delivered bytes the application has not taken yet. */
  function Unread(rx: Receiver): seq<byte> {
    if rx.deliveredConsumed <= |rx.delivered| then rx.delivered[rx.deliveredConsumed..] else []
  }

  predicate Readable(rx: Receiver) { rx.deliveredConsumed < |rx.delivered| }

  function ReadPart(rx: Receiver, wanted: nat): seq<byte>
    requires Readable(rx)
  {
    var available := |rx.delivered| - rx.deliveredConsumed;
    rx.delivered[rx.deliveredConsumed..rx.deliveredConsumed + if available < wanted then available else wanted]
  }

  function AfterRead(rx: Receiver, wanted: nat): Receiver
    requires Readable(rx)
  {
    var consumed := rx.deliveredConsumed + |ReadPart(rx, wanted)|;
    if consumed == |rx.delivered| then rx.(delivered := [], deliveredConsumed := 0)
    else rx.(deliveredConsumed := consumed)
  }

  /** A reader with nothing left to read is told that the stream has ended. */
  predicate EndOfStream(rx: Receiver) {
    !Readable(rx) && rx.peerFinished && |rx.reorder| == 0
  }
}
