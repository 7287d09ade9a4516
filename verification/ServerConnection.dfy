/** One client's buffers at the server. */
module ServerConnection {

  import opened Bytes
  import opened Frames

  /** What one call of the socket returns. */
  datatype Received = Data(bytes: seq<byte>) | Closed | WouldBlock | Interrupted | Broken

  datatype Sent = Wrote(count: nat) | SendBlocked | SendInterrupted | SendBroken

  /** Bytes a run of calls delivers, up to the first that ends the loop or fills the buffer. */
  function Delivered(pending: nat, answers: seq<Received>): seq<byte>
    decreases |answers|
  {
    if pending >= MAX_INPUT_BUFFER || answers == [] then []
    else
      match answers[0]
      case Data(bytes) =>
        if bytes == [] then []
        else
          var taken := if |bytes| < READ_BATCH then bytes else bytes[..READ_BATCH];
          taken + Delivered(pending + |taken|, answers[1..])
      case Interrupted => Delivered(pending, answers[1..])
      case _ => []
  }

  /** Bytes the socket takes, up to the first refusal. */
  function Flushed(pending: nat, answers: seq<Sent>): (n: nat)
    ensures n <= pending
    decreases |answers|
  {
    if pending == 0 || answers == [] then 0
    else
      match answers[0]
      case Wrote(count) =>
        if count == 0 then 0
        else
          var n := if count < pending then count else pending;
          n + Flushed(pending - n, answers[1..])
      case SendInterrupted => Flushed(pending, answers[1..])
      case _ => 0
  }

  /** Whether the peer may still send: only an end of stream or an error seen before the cap ends it. */
  predicate StaysOpen(pending: nat, answers: seq<Received>)
    decreases |answers|
  {
    if pending >= MAX_INPUT_BUFFER || answers == [] then true
    else
      match answers[0]
      case Data(bytes) =>
        bytes != [] && StaysOpen(pending + if |bytes| < READ_BATCH then |bytes| else READ_BATCH, answers[1..])
      case Interrupted => StaysOpen(pending, answers[1..])
      case WouldBlock => true
      case _ => false
  }

  /** What the answer at `i` does to a buffer below its cap. */
  lemma AnswerRead(pending: nat, answers: seq<Received>, i: nat)
    requires i < |answers| && pending < MAX_INPUT_BUFFER
    ensures match answers[i]
            case Data(bytes) =>
              if bytes == [] then Delivered(pending, answers[i..]) == [] && !StaysOpen(pending, answers[i..])
              else
                var taken := if |bytes| < READ_BATCH then bytes else bytes[..READ_BATCH];
                && Delivered(pending, answers[i..]) == taken + Delivered(pending + |taken|, answers[i + 1..])
                && StaysOpen(pending, answers[i..]) == StaysOpen(pending + |taken|, answers[i + 1..])
            case Interrupted =>
              && Delivered(pending, answers[i..]) == Delivered(pending, answers[i + 1..])
              && StaysOpen(pending, answers[i..]) == StaysOpen(pending, answers[i + 1..])
            case WouldBlock => Delivered(pending, answers[i..]) == [] && StaysOpen(pending, answers[i..])
            case _ => Delivered(pending, answers[i..]) == [] && !StaysOpen(pending, answers[i..])
  {
    assert answers[i..][0] == answers[i] && answers[i..][1..] == answers[i + 1..];
  }

  lemma NothingRead(pending: nat, answers: seq<Received>)
    requires pending >= MAX_INPUT_BUFFER || answers == []
    ensures Delivered(pending, answers) == [] && StaysOpen(pending, answers)
  {
  }

  /** Whether the connection survives the flush: only a refusal other than a full socket buffer kills it. */
  predicate Survives(pending: nat, answers: seq<Sent>)
    decreases |answers|
  {
    if pending == 0 || answers == [] then true
    else
      match answers[0]
      case Wrote(count) => count != 0 && Survives(if count < pending then pending - count else 0, answers[1..])
      case SendInterrupted => Survives(pending, answers[1..])
      case SendBlocked => true
      case SendBroken => false
  }

  /** What the answer at `i` does to a buffer that is not empty. */
  lemma AnswerSent(pending: nat, answers: seq<Sent>, i: nat)
    requires i < |answers| && pending > 0
    ensures match answers[i]
            case Wrote(count) =>
              if count == 0 then Flushed(pending, answers[i..]) == 0 && !Survives(pending, answers[i..])
              else
                var n := if count < pending then count else pending;
                && Flushed(pending, answers[i..]) == n + Flushed(pending - n, answers[i + 1..])
                && Survives(pending, answers[i..]) == Survives(pending - n, answers[i + 1..])
            case SendInterrupted =>
              && Flushed(pending, answers[i..]) == Flushed(pending, answers[i + 1..])
              && Survives(pending, answers[i..]) == Survives(pending, answers[i + 1..])
            case SendBlocked => Flushed(pending, answers[i..]) == 0 && Survives(pending, answers[i..])
            case SendBroken => Flushed(pending, answers[i..]) == 0 && !Survives(pending, answers[i..])
  {
    assert answers[i..][0] == answers[i] && answers[i..][1..] == answers[i + 1..];
  }

  lemma NothingSent(pending: nat, answers: seq<Sent>)
    requires pending == 0 || answers == []
    ensures Flushed(pending, answers) == 0 && Survives(pending, answers)
  {
  }

  class Connection {
    var input: seq<byte>
    var inputConsumed: nat
    var peerClosed: bool
    var output: seq<byte>
    var outputSent: nat

    ghost predicate Valid()
      reads this
    {
      inputConsumed <= |input| && outputSent <= |output|
    }

    /** Input not yet taken as frames. */
    ghost function Unread(): seq<byte>
      requires Valid()
      reads this
    {
      input[inputConsumed..]
    }

    /** Output not yet taken by the socket. */
    ghost function Pending(): seq<byte>
      requires Valid()
      reads this
    {
      output[outputSent..]
    }

    constructor ()
      ensures Valid() && Unread() == [] && Pending() == [] && !peerClosed
    {
      input, inputConsumed, output, outputSent, peerClosed := [], 0, [], 0, false;
    }

    method CompactInput()
      requires Valid()
      modifies this`input, this`inputConsumed
      ensures Valid() && Unread() == old(Unread())
      ensures inputConsumed < READ_BATCH
    {
      if inputConsumed > 0 && (inputConsumed >= 64 * 1024 || inputConsumed >= |input| / 2) {
        input := input[inputConsumed..];
        inputConsumed := 0;
      }
    }

    method AppendInput(bytes: seq<byte>)
      requires Valid()
      modifies this`input
      ensures Valid() && Unread() == old(Unread()) + bytes
    {
      input := input + bytes;
    }

    /** Reads until the socket has no more or the buffer is at its cap. */
    method ReadAvailable(answers: seq<Received>) returns (open: bool)
      requires Valid()
      modifies this`input, this`inputConsumed, this`peerClosed
      ensures Valid() && Unread() == old(Unread()) + Delivered(|old(Unread())|, answers)
      ensures open == StaysOpen(|old(Unread())|, answers) && peerClosed == (old(peerClosed) || !open)
      ensures |Unread()| < MAX_INPUT_BUFFER + READ_BATCH || |old(Unread())| >= MAX_INPUT_BUFFER
    {
      hide Delivered, StaysOpen;
      var i := 0;
      ghost var start, got, goal := Unread(), [], Delivered(|Unread()|, answers);
      assert answers[0..] == answers && [] + goal == goal && start + [] == start;
      while i < |answers|
        invariant i <= |answers| && Valid()
        invariant Unread() == start + got
        invariant got + Delivered(|Unread()|, answers[i..]) == goal
        invariant StaysOpen(|start|, answers) == StaysOpen(|Unread()|, answers[i..]) && peerClosed == old(peerClosed)
        invariant |Unread()| < MAX_INPUT_BUFFER + READ_BATCH || Unread() == old(Unread())
        decreases |answers| - i
      {
        CompactInput();
        assert got + [] == got;
        if |input| - inputConsumed >= MAX_INPUT_BUFFER {
          NothingRead(|Unread()|, answers[i..]);
          return true;
        }
        AnswerRead(|Unread()|, answers, i);
        match answers[i] {
          case Data(bytes) =>
            if bytes == [] {
              peerClosed := true;
              return false;
            }
            var taken := if |bytes| < READ_BATCH then bytes else bytes[..READ_BATCH];
            ghost var more := Delivered(|Unread()| + |taken|, answers[i + 1..]);
            AppendInput(taken);
            Regroup(got, taken, more);
            Regroup(start, got, taken);
            got := got + taken;
          case Interrupted =>
          case WouldBlock => return true;
          case _ =>
            peerClosed := true;
            return false;
        }
        i := i + 1;
      }
      assert got + [] == got;
      NothingRead(|Unread()|, answers[i..]);
      open := true;
    }

    /** The next whole frame; a refused header throws and takes nothing. */
    method TakeFrame() returns (r: Next)
      requires Valid()
      modifies this`inputConsumed
      ensures Valid()
      ensures var next := NextFrame(old(Unread()));
              && (next.Ready? ==> r == next && Unread() == next.rest)
              && (!next.Ready? ==> r == next && Unread() == old(Unread()))
    {
      var available := |input| - inputConsumed;
      if available < FRAME_HEADER_SIZE {
        return NotYet;
      }
      ghost var unread := Unread();
      assert unread[..FRAME_HEADER_SIZE] == input[inputConsumed..inputConsumed + FRAME_HEADER_SIZE];
      var header := DecodeHeader(input[inputConsumed..inputConsumed + FRAME_HEADER_SIZE]);
      if header.None? {
        return Rejected;
      }
      var end := FRAME_HEADER_SIZE + header.value.length;
      if available < end {
        return NotYet;
      }
      var payload := input[inputConsumed + FRAME_HEADER_SIZE..inputConsumed + end];
      assert payload == unread[FRAME_HEADER_SIZE..end];
      inputConsumed := inputConsumed + end;
      assert Unread() == unread[end..];
      r := Ready(Frame(header.value.kind, header.value.flags, payload), input[inputConsumed..]);
    }

    method CompactOutput()
      requires Valid()
      modifies this`output, this`outputSent
      ensures Valid() && Pending() == old(Pending())
    {
      if outputSent > 0 && outputSent == |output| {
        output, outputSent := [], 0;
      } else if outputSent > 64 * 1024 {
        output, outputSent := output[outputSent..], 0;
      }
    }

    /** False where the frame is refused as oversized. */
    method EnqueueFrame(kind: byte, payload: seq<byte>) returns (ok: bool)
      requires Valid()
      modifies this`output, this`outputSent
      ensures Valid() && ok == (|payload| <= MAX_FRAME_LENGTH)
      ensures Pending() == if ok then old(Pending()) + Encode(Frame(kind, 0, payload)) else old(Pending())
    {
      if |payload| > MAX_FRAME_LENGTH {
        return false;
      }
      CompactOutput();
      ghost var pending := Pending();
      output := output + EncodeHeader(kind, 0, |payload|) + payload;
      assert Pending() == pending + Encode(Frame(kind, 0, payload));
      ok := true;
    }

    method AdvanceOutput(n: nat) returns (part: seq<byte>)
      requires Valid() && n <= |Pending()|
      modifies this`outputSent
      ensures Valid() && |part| == n && old(Pending()) == part + Pending() && |Pending()| == |old(Pending())| - n
    {
      part := output[outputSent..outputSent + n];
      outputSent := outputSent + n;
    }

    /** Pushes what the socket will take; `sent` is what left, in order. */
    method FlushOutput(answers: seq<Sent>) returns (alive: bool, sent: seq<byte>)
      requires Valid()
      modifies this`output, this`outputSent
      ensures Valid()
      ensures var n := Flushed(|old(Pending())|, answers);
              sent == old(Pending())[..n] && Pending() == old(Pending())[n..]
      ensures alive == Survives(|old(Pending())|, answers)
    {
      hide Flushed, Survives;
      ghost var pending := Pending();
      sent := [];
      var i := 0;
      assert answers[0..] == answers;
      while i < |answers|
        invariant i <= |answers| && Valid()
        invariant sent + Pending() == pending
        invariant |sent| + Flushed(|Pending()|, answers[i..]) == Flushed(|pending|, answers)
        invariant Survives(|Pending()|, answers[i..]) == Survives(|pending|, answers)
        decreases |answers| - i
      {
        var remaining := |output| - outputSent;
        if remaining == 0 {
          NothingSent(0, answers[i..]);
          output, outputSent := [], 0;
          return true, sent;
        }
        AnswerSent(remaining, answers, i);
        match answers[i] {
          case Wrote(count) =>
            if count == 0 {
              return false, sent;
            }
            var n := if count < remaining then count else remaining;
            ghost var before, already := Pending(), sent;
            var part := AdvanceOutput(n);
            sent := sent + part;
            Regroup(already, part, Pending());
            if outputSent == |output| {
              NothingSent(0, answers[i + 1..]);
              output, outputSent := [], 0;
              return true, sent;
            }
          case SendInterrupted =>
          case SendBlocked => return true, sent;
          case SendBroken => return false, sent;
        }
        i := i + 1;
      }
      NothingSent(|Pending()|, answers[i..]);
      alive := true;
    }

    predicate InputAtCap()
      reads this
    {
      |input| - inputConsumed >= MAX_INPUT_BUFFER
    }

    /** At the cap there is always a frame to take or a header to refuse. */
    lemma CapNeverStalls()
      requires Valid() && InputAtCap()
      ensures NextFrame(Unread()) != NotYet
    {
      FullBufferHasFrame(Unread());
    }
  }
}
