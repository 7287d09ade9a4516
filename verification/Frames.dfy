/** The eight-byte header and the payload it announces. */
module Frames {

  import opened Bytes
  import opened LittleEndian

  const PROTOCOL_VERSION: byte := 1
  const FRAME_HEADER_SIZE: nat := 8
  const MAX_FRAME_LENGTH: nat := 2 * 1024 * 1024

  const RELAY_OPEN: byte := 8
  const RELAY_DATA: byte := 9
  const RELAY_CLOSE: byte := 10
  const KEEP_ALIVE: byte := 11

  datatype Frame = Frame(kind: byte, flags: nat, payload: seq<byte>)

  predicate Sendable(f: Frame) { f.flags < U16 && |f.payload| <= MAX_FRAME_LENGTH }

  function EncodeHeader(kind: byte, flags: nat, length: nat): (bytes: seq<byte>)
    ensures |bytes| == FRAME_HEADER_SIZE
  {
    [PROTOCOL_VERSION, kind] + Store(flags, 2) + Store(length, 4)
  }

  function Encode(f: Frame): seq<byte> { EncodeHeader(f.kind, f.flags, |f.payload|) + f.payload }

  function EncodeAll(fs: seq<Frame>): seq<byte> {
    if fs == [] then [] else Encode(fs[0]) + EncodeAll(fs[1..])
  }

  datatype Header = Header(kind: byte, flags: nat, length: nat)

  /** None where the reader fails: another version, or a length over the limit. */
  function DecodeHeader(bytes: seq<byte>): (h: Option<Header>)
    requires |bytes| == FRAME_HEADER_SIZE
    ensures h.Some? ==> h.value.length <= MAX_FRAME_LENGTH
  {
    var length := Load(bytes[4..8]);
    if bytes[0] != PROTOCOL_VERSION || length > MAX_FRAME_LENGTH then None
    else Some(Header(bytes[1], Load(bytes[2..4]), length))
  }

  lemma HeaderParts(start: seq<byte>, flags: seq<byte>, length: seq<byte>)
    requires |start| == 2 && |flags| == 2 && |length| == 4
    ensures var s := start + flags + length; s[0] == start[0] && s[1] == start[1] && s[2..4] == flags && s[4..8] == length
  {
  }

  /** A header comes back exactly when its length is allowed. */
  lemma HeaderRoundTrip(kind: byte, flags: nat, length: nat)
    requires flags < U16 && length < U32
    ensures DecodeHeader(EncodeHeader(kind, flags, length)) ==
            if length <= MAX_FRAME_LENGTH then Some(Header(kind, flags, length)) else None
  {
    HeaderParts([PROTOCOL_VERSION, kind], Store(flags, 2), Store(length, 4));
    Widths();
    LoadStore(flags, 2);
    LoadStore(length, 4);
    hide Store, Load;
  }

  // -- Frames off a buffer --------------------------------------------------

  datatype Next = NotYet | Rejected | Ready(frame: Frame, rest: seq<byte>)

  /** The first frame of the buffered bytes, once it is all there. */
  function NextFrame(input: seq<byte>): Next {
    if |input| < FRAME_HEADER_SIZE then NotYet
    else
      var h := DecodeHeader(input[..FRAME_HEADER_SIZE]);
      if h.None? then Rejected
      else
        var end := FRAME_HEADER_SIZE + h.value.length;
        if |input| < end then NotYet
        else Ready(Frame(h.value.kind, h.value.flags, input[FRAME_HEADER_SIZE..end]), input[end..])
  }

  lemma EncodeLength(f: Frame)
    ensures |Encode(f)| == FRAME_HEADER_SIZE + |f.payload|
  {
  }

  /** What is buffered of a stream that starts with a frame either yields that frame or is too short for it. */
  lemma NextOfStream(buffered: seq<byte>, coming: seq<byte>, f: Frame, after: seq<byte>)
    requires Sendable(f) && buffered + coming == Encode(f) + after
    ensures |buffered| < |Encode(f)| ==> NextFrame(buffered) == NotYet
    ensures |buffered| >= |Encode(f)| ==>
              && NextFrame(buffered) == Ready(f, buffered[|Encode(f)|..])
              && buffered[|Encode(f)|..] + coming == after
  {
    var whole, header := buffered + coming, EncodeHeader(f.kind, f.flags, |f.payload|);
    HeaderRoundTrip(f.kind, f.flags, |f.payload|);
    EncodeLength(f);
    hide EncodeHeader, DecodeHeader;
    if |buffered| >= FRAME_HEADER_SIZE {
      assert buffered[..FRAME_HEADER_SIZE] == whole[..FRAME_HEADER_SIZE] == header;
      if |buffered| >= |Encode(f)| {
        var end := FRAME_HEADER_SIZE + |f.payload|;
        assert buffered[FRAME_HEADER_SIZE..end] == whole[FRAME_HEADER_SIZE..end] == f.payload;
        assert buffered[end..] + coming == whole[end..] == after;
      }
    }
  }

  lemma {:induction false} EncodeAllConcat(a: seq<Frame>, b: seq<Frame>)
    ensures EncodeAll(a + b) == EncodeAll(a) + EncodeAll(b)
  {
    if a == [] {
      assert a + b == b;
    } else {
      assert (a + b)[1..] == a[1..] + b;
      EncodeAllConcat(a[1..], b);
    }
  }

  // -- Writing a frame ------------------------------------------------------

  datatype Written = Took(count: nat) | TryAgain | Failure

  datatype WriteStatus = Complete | Stopped | Waiting | TooLong

  /** Steps past `count` bytes: whole parts go, the next one is trimmed. */
  method Advance(parts: seq<seq<byte>>, count: nat) returns (rest: seq<seq<byte>>)
    requires count <= |Join(parts)|
    ensures |Join(rest)| == |Join(parts)| - count && Join(rest) == Join(parts)[count..]
  {
    var index, consumed := 0, count;
    assert parts[0..] == parts;
    while index < |parts| && consumed >= |parts[index]|
      invariant index <= |parts| && 0 <= consumed <= |Join(parts[index..])|
      invariant Join(parts[index..])[consumed..] == Join(parts)[count..]
    {
      JoinFirst(parts[index..]);
      assert parts[index..][1..] == parts[index + 1..];
      consumed := consumed - |parts[index]|;
      index := index + 1;
    }
    rest := parts[index..];
    ghost var left := Join(rest);
    assert left[0..] == left && (index == |parts| ==> rest == []);
    if index < |parts| && consumed > 0 {
      JoinFirst(rest);
      ghost var tail := rest[1..];
      rest := [parts[index][consumed..]] + rest[1..];
      assert rest[1..] == tail;
      JoinFirst(rest);
      assert left[consumed..] == rest[0] + Join(tail);
    }
  }

  lemma JoinFirst(parts: seq<seq<byte>>)
    requires parts != []
    ensures Join(parts) == parts[0] + Join(parts[1..])
  {
    JoinSplit(parts, 1);
    var first := parts[..1];
    assert |first[..0]| == 0 && first[0] == parts[0];
    assert Join(first) == [] + first[0];
  }

  /** Header and payload go out together; whatever the socket takes at a time, the bytes leave in order. */
  method WriteFrame(f: Frame, answers: seq<Written>) returns (sent: seq<byte>, status: WriteStatus)
    ensures status == TooLong <==> |f.payload| > MAX_FRAME_LENGTH
    ensures status == TooLong ==> sent == []
    ensures sent <= Encode(f)
    ensures status == Complete ==> sent == Encode(f)
  {
    sent := [];
    if |f.payload| > MAX_FRAME_LENGTH {
      return sent, TooLong;
    }
    var parts: seq<seq<byte>> := [EncodeHeader(f.kind, f.flags, |f.payload|), f.payload];
    JoinFirst(parts);
    JoinFirst(parts[1..]);
    ghost var whole := Encode(f);
    ghost var last: seq<seq<byte>> := parts[1..];
    assert last[1..] == [] && Join(last) == f.payload && [] + whole == whole;
    hide Encode, EncodeHeader, Join;
    var total := FRAME_HEADER_SIZE + |f.payload|;
    assert |whole| == total by {
      EncodeLength(f);
    }
    var i := 0;
    while |sent| < total
      invariant sent + Join(parts) == whole && i <= |answers|
      decreases |answers| - i
    {
      if i == |answers| {
        return sent, Waiting;
      }
      match answers[i] {
        case TryAgain =>
        case Failure => return sent, Stopped;
        case Took(count) =>
          var n := if count < total - |sent| then count else total - |sent|;
          var bytes := Join(parts)[..n];
          ghost var before := Join(parts);
          parts := Advance(parts, n);
          assert before == bytes + Join(parts);
          Regroup(sent, bytes, Join(parts));
          sent := sent + bytes;
      }
      i := i + 1;
    }
    assert |Join(parts)| == 0;
    status := Complete;
  }

  // -- A full input buffer --------------------------------------------------

  const READ_BATCH: nat := 64 * 1024
  const MAX_INPUT_BUFFER: nat := MAX_FRAME_LENGTH + FRAME_HEADER_SIZE + READ_BATCH

  /** A buffer at its cap never stalls: it holds a whole frame or a header that is refused. */
  lemma FullBufferHasFrame(input: seq<byte>)
    requires |input| >= MAX_INPUT_BUFFER
    ensures NextFrame(input) != NotYet
  {
  }

  /** Nothing smaller than a maximal frame would do. */
  lemma ShortBufferMayStall(n: nat)
    requires n < FRAME_HEADER_SIZE + MAX_FRAME_LENGTH
    ensures exists input :: |input| == n && NextFrame(input) == NotYet
  {
    var f := Frame(RELAY_DATA, 0, seq(MAX_FRAME_LENGTH, _ => 0));
    var input := Encode(f)[..n];
    EncodeLength(f);
    assert input + Encode(f)[n..] == Encode(f) + [];
    NextOfStream(input, Encode(f)[n..], f, []);
  }
}
