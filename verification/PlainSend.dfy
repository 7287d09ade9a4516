/** The send without workers: chunks leave unsealed, one after the other. */
module PlainSend {

  import opened Bytes
  import opened ChunkPlanning
  import opened FileTransfer
  import opened TransferReceive
  import opened EndToEnd
  import F = Frames

  const CHUNK: byte := 34
  const PLAIN_FLAGS := 1

  function Framed(payload: seq<byte>): F.Frame { F.Frame(CHUNK, PLAIN_FLAGS, payload) }

  function AllFramed(payloads: seq<seq<byte>>): (frames: seq<F.Frame>)
    ensures |frames| == |payloads| && forall i :: 0 <= i < |frames| ==> frames[i] == Framed(payloads[i])
  {
    seq(|payloads|, i requires 0 <= i < |payloads| => Framed(payloads[i]))
  }

  /** The chunks a reader takes off the front of a stream. */
  function ChunksOff(stream: seq<byte>): seq<seq<byte>>
    decreases |stream|
  {
    match F.NextFrame(stream)
    case Ready(f, rest) => if f.kind == CHUNK then [f.payload] + ChunksOff(rest) else []
    case _ => []
  }

  lemma {:induction false} FramedReadBack(payloads: seq<seq<byte>>)
    requires forall p <- payloads :: |p| <= F.MAX_FRAME_LENGTH
    ensures ChunksOff(F.EncodeAll(AllFramed(payloads))) == payloads
  {
    hide F.Encode;
    var stream := F.EncodeAll(AllFramed(payloads));
    if payloads == [] {
      assert stream == [];
    } else {
      var first, others := Framed(payloads[0]), F.EncodeAll(AllFramed(payloads[1..]));
      assert AllFramed(payloads)[1..] == AllFramed(payloads[1..]);
      assert stream == F.Encode(first) + others && stream + [] == stream;
      assert F.Sendable(first);
      F.NextOfStream(stream, [], first, others);
      assert stream[|F.Encode(first)|..] == others;
      FramedReadBack(payloads[1..]);
      assert payloads == [payloads[0]] + payloads[1..];
    }
  }

  lemma OneMoreFrame(payloads: seq<seq<byte>>, payload: seq<byte>)
    ensures F.EncodeAll(AllFramed(payloads + [payload])) == F.EncodeAll(AllFramed(payloads)) + F.Encode(Framed(payload))
  {
    var last := [Framed(payload)];
    assert AllFramed(payloads + [payload]) == AllFramed(payloads) + last;
    F.EncodeAllConcat(AllFramed(payloads), last);
    assert last[1..] == [] && F.EncodeAll(last) == F.Encode(last[0]) + [];
  }

  /** Both headers in one write and the file's bytes behind them are the frame. */
  lemma SplicedIsFrame(header: seq<byte>, data: seq<byte>)
    ensures F.EncodeHeader(CHUNK, PLAIN_FLAGS, |header| + |data|) + header + data == F.Encode(Framed(header + data))
  {
    Regroup(F.EncodeHeader(CHUNK, PLAIN_FLAGS, |header| + |data|), header, data);
  }

  /**
   * Chunks of one file share one open file; spliced or copied, the same bytes leave.
   * Copying stops at the first chunk that is too long for a frame.
   */
  method SendPlaintext(t: Transfer, spliced: bool) returns (stream: seq<byte>, sent: nat)
    requires Legal(t) && t.protection.Plain?
    ensures sent <= |Chunks(t)| && stream == F.EncodeAll(AllFramed(FramesFrom(t, sent)))
    ensures sent < |Chunks(t)| ==> !spliced && CHUNK_HEADER_SIZE + Chunks(t)[sent].length > F.MAX_FRAME_LENGTH
    ensures !spliced ==> forall k :: 0 <= k < sent ==> CHUNK_HEADER_SIZE + Chunks(t)[k].length <= F.MAX_FRAME_LENGTH
  {
    hide F.EncodeAll, F.Encode, F.EncodeHeader, EncodeHeader;
    var plan := PlanChunks(Sizes(t.sources), t.chunkSize);
    var current: Option<nat>, mapped: seq<byte> := None, [];
    stream, sent := [], 0;
    NothingFramed();
    while sent < |plan|
      invariant sent <= |plan| == |Chunks(t)|
      invariant current.Some? ==> current.value < |t.sources| && mapped == t.sources[current.value]
      invariant stream == F.EncodeAll(AllFramed(FramesFrom(t, sent)))
      invariant !spliced ==> forall k :: 0 <= k < sent ==> CHUNK_HEADER_SIZE + plan[k].length <= F.MAX_FRAME_LENGTH
    {
      var chunk := plan[sent];
      PlannedInside(t, sent);
      if current != Some(chunk.file) {
        current, mapped := Some(chunk.file), t.sources[chunk.file];
      }
      var header := EncodeHeader(HeaderOf(chunk, sent));
      var data := mapped[chunk.offset..chunk.offset + chunk.length];
      if spliced {
        stream := stream + (F.EncodeHeader(CHUNK, PLAIN_FLAGS, CHUNK_HEADER_SIZE + chunk.length) + header + data);
        SplicedIsFrame(header, data);
      } else if |header + data| > F.MAX_FRAME_LENGTH {
        return;
      } else {
        stream := stream + F.Encode(Framed(header + data));
      }
      assert header + data == FrameFor(t, chunk, sent);
      OneMoreFrame(FramesFrom(t, sent), FrameFor(t, chunk, sent));
      sent := sent + 1;
    }
  }

  lemma NothingFramed()
    ensures F.EncodeAll(AllFramed([])) == []
  {
  }

  lemma FramesFit(t: Transfer)
    requires Legal(t) && t.protection.Plain? && CHUNK_HEADER_SIZE + t.chunkSize <= F.MAX_FRAME_LENGTH
    ensures forall p <- Frames(t) :: |p| <= F.MAX_FRAME_LENGTH
  {
    hide Chunks;
    FramesFromOk(t, |Chunks(t)|);
    forall k | 0 <= k < |Chunks(t)| ensures |Frames(t)[k]| <= F.MAX_FRAME_LENGTH {
      PlannedInside(t, k);
    }
  }

  /**
   * Every receiver that takes the chunks off the stream of a plain send, its
   * workers interleaved in any way, ends with every file in place.
   */
  lemma PlainFilesArrive(t: Transfer, disk: Disk, stream: seq<byte>, receives: seq<Act>)
    requires Legal(t) && Agreeing(t) && t.protection.Plain? && CHUNK_HEADER_SIZE + t.chunkSize <= F.MAX_FRAME_LENGTH
    requires stream == F.EncodeAll(AllFramed(Frames(t)))
    requires var r := Play(t, disk, ChunksOff(stream), receives); r.Some? && Complete(ChunksOff(stream), r.value)
    ensures var r := Play(t, disk, ChunksOff(stream), receives).value; Delivered(t, r.disk) && AllWritten(t, r)
  {
    FramesFit(t);
    FramedReadBack(Frames(t));
    FramesFromOk(t, |Chunks(t)|);
    TransferDelivers(t, disk, Frames(t), receives);
  }

  /** The loop of the sender followed by the loop of a receiver without workers. */
  method TransferPlain(t: Transfer, disk: Disk, spliced: bool) returns (s: Receiving, refusal: Option<Refusal>)
    requires Legal(t) && Agreeing(t) && t.protection.Plain? && CHUNK_HEADER_SIZE + t.chunkSize <= F.MAX_FRAME_LENGTH
    ensures refusal == None && Delivered(t, s.disk) && AllWritten(t, s)
  {
    hide Play, Chunks, FrameFor, Admit, Delivered, AllWritten;
    var stream, sent := SendPlaintext(t, spliced);
    assert sent == |Chunks(t)| by {
      if sent < |Chunks(t)| {
        PlannedInside(t, sent);
      }
    }
    FramesFit(t);
    FramedReadBack(Frames(t));
    FramesFromOk(t, |Chunks(t)|);
    var frames := ChunksOff(stream);
    ghost var acts;
    s, refusal, acts := ReceiveInOrder(t, disk, frames);
    if refusal.Some? {
      PlannedAdmitted(t, |s.jobs|);
      assert false;
    }
    PlainFilesArrive(t, disk, stream, acts);
  }
}
