/** The 22-byte header on every UDP datagram. */
module UdpHeader {
  import opened Bytes
  import opened LittleEndian
  import opened UdpPackets

  const HEADER_SIZE: nat := 22
  const MAGIC: seq<byte> := [68, 81]

  function KindTag(kind: Kind): byte {
    match kind
    case Punch => 1
    case PunchAck => 2
    case Data => 3
    case Ack => 4
    case Fin => 5
    case FinAck => 6
    case Unknown(tag) => tag
  }

  function TagKind(tag: byte): Kind {
    match tag
    case 1 => Punch
    case 2 => PunchAck
    case 3 => Data
    case 4 => Ack
    case 5 => Fin
    case 6 => FinAck
    case _ => Unknown(tag)
  }

  /** Bit `k` of the bitmap has weight `2^k`. */
  function BitsValue(bits: seq<bool>): nat {
    if bits == [] then 0 else (if bits[0] then 1 else 0) + 2 * BitsValue(bits[1..])
  }

  function ValueBits(value: nat, count: nat): (bits: seq<bool>)
    ensures |bits| == count
  {
    if count == 0 then [] else [value % 2 == 1] + ValueBits(value / 2, count - 1)
  }

  lemma {:induction false} BitsRoundTrip(bits: seq<bool>)
    ensures BitsValue(bits) < PowerOfTwo(|bits|)
    ensures ValueBits(BitsValue(bits), |bits|) == bits
  {
    if bits != [] {
      BitsRoundTrip(bits[1..]);
      assert BitsValue(bits) / 2 == BitsValue(bits[1..]);
      assert bits == [bits[0]] + bits[1..];
    }
  }

  function Encode(p: Packet): seq<byte> {
    MAGIC + [KindTag(p.kind)] + [0] + Store(p.sequence, 4) + Store(p.ack, 4)
    + Store(BitsValue(p.ackBits), 8) + Store(|p.payload|, 2) + p.payload
  }

  /** Bytes after the declared payload are ignored. */
  function Parse(data: seq<byte>): Option<Packet> {
    if |data| < HEADER_SIZE || data[..2] != MAGIC then None
    else
      var length := Load(data[20..22]);
      if length > MAX_PAYLOAD || |data| < HEADER_SIZE + length then None
      else Some(Packet(TagKind(data[2]), Load(data[4..8]), Load(data[8..12]),
                       ValueBits(Load(data[12..20]), 64), data[HEADER_SIZE..HEADER_SIZE + length]))
  }

  /** What fits the header's fields. */
  predicate Encodable(p: Packet) {
    && p.sequence < 0x1_0000_0000 && p.ack < 0x1_0000_0000
    && |p.ackBits| == 64 && |p.payload| <= MAX_PAYLOAD
    && (p.kind.Unknown? ==> p.kind.tag == 0 || p.kind.tag > 6)
  }

  /** Where each field sits. */
  lemma Layout(start: seq<byte>, sequence: seq<byte>, ack: seq<byte>, bits: seq<byte>, length: seq<byte>,
               payload: seq<byte>, trailing: seq<byte>)
    requires |start| == 4 && |sequence| == 4 && |ack| == 4 && |bits| == 8 && |length| == 2
    ensures var data := start + sequence + ack + bits + length + payload + trailing;
            && |data| >= HEADER_SIZE + |payload| && data[..4] == start
            && data[4..8] == sequence && data[8..12] == ack && data[12..20] == bits && data[20..22] == length
            && data[HEADER_SIZE..HEADER_SIZE + |payload|] == payload
  {
  }

  /** A datagram whose fields fit the header is read back, whatever follows it. */
  lemma ParseEncode(p: Packet, trailing: seq<byte>)
    requires Encodable(p)
    ensures Parse(Encode(p) + trailing) == Some(p)
  {
    hide Store, Load, BitsValue, ValueBits;
    var start := MAGIC + [KindTag(p.kind)] + [0];
    var sequence, ack := Store(p.sequence, 4), Store(p.ack, 4);
    var bits, length := Store(BitsValue(p.ackBits), 8), Store(|p.payload|, 2);
    var data := start + sequence + ack + bits + length + p.payload + trailing;
    Layout(start, sequence, ack, bits, length, p.payload, trailing);
    assert Encode(p) + trailing == data;
    assert data[..2] == data[..4][..2] && data[2] == data[..4][2];
    FieldsLoad(p);
  }

  lemma FieldsLoad(p: Packet)
    requires Encodable(p)
    ensures Load(Store(p.sequence, 4)) == p.sequence && Load(Store(p.ack, 4)) == p.ack
    ensures Load(Store(|p.payload|, 2)) == |p.payload|
    ensures ValueBits(Load(Store(BitsValue(p.ackBits), 8)), 64) == p.ackBits
  {
    BitsRoundTrip(p.ackBits);
    PowerOfRange(8);
    Widths();
    LoadStore(p.sequence, 4);
    LoadStore(p.ack, 4);
    LoadStore(BitsValue(p.ackBits), 8);
    LoadStore(|p.payload|, 2);
  }

  /** Whatever parses has fields within the widths the protocol relies on. */
  lemma ParseInRange(data: seq<byte>)
    ensures Parse(data).Some? ==> Encodable(Parse(data).value)
  {
    if Parse(data).Some? {
      Widths();
      StoreLoad(data[4..8]);
      StoreLoad(data[8..12]);
    }
  }
}
