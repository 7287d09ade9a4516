/** Datagrams of the reliable UDP stream, after parsing. */
module UdpPackets {
  import opened Bytes

  const MAX_PAYLOAD: nat := 1178

  datatype Kind = Punch | PunchAck | Data | Ack | Fin | FinAck | Unknown(tag: byte)

  /** `ackBits[k]` reports the sequence `ack + 1 + k`. */
  datatype Packet = Packet(kind: Kind, sequence: nat, ack: nat, ackBits: seq<bool>, payload: seq<byte>)

  function NoBits(): (bits: seq<bool>)
    ensures |bits| == 64 && forall k :: 0 <= k < 64 ==> !bits[k]
  {
    seq(64, k => false)
  }

  function ControlPacket(kind: Kind, ack: nat): Packet {
    Packet(kind, 0, ack, NoBits(), [])
  }
}
