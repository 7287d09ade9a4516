/**
 * A byte stream tunnelled through the server: RelayData frames out of one client,
 * through the server's buffers, into the other client's inbox.
 */
module RelayStream {

  import opened Bytes
  import opened Frames

  const RELAY_PAYLOAD_SIZE: nat := 256 * 1024

  // -- The sending client ---------------------------------------------------

  /** The frames one write becomes. */
  function Split(data: seq<byte>): seq<Frame> {
    if data == [] then []
    else
      var batch := if |data| < RELAY_PAYLOAD_SIZE then |data| else RELAY_PAYLOAD_SIZE;
      [Frame(RELAY_DATA, 0, data[..batch])] + Split(data[batch..])
  }

  /** The stream bytes that frames carry. */
  function Carried(fs: seq<Frame>): seq<byte> {
    if fs == [] then []
    else (if fs[0].kind == RELAY_DATA then fs[0].payload else []) + Carried(fs[1..])
  }

  ghost predicate AllSendable(fs: seq<Frame>) { forall f <- fs :: Sendable(f) }

  lemma {:induction false} SplitCarries(data: seq<byte>)
    ensures Carried(Split(data)) == data && AllSendable(Split(data))
    ensures forall f <- Split(data) :: f.kind == RELAY_DATA && 0 < |f.payload| <= RELAY_PAYLOAD_SIZE
    decreases |data|
  {
    if data != [] {
      var batch := if |data| < RELAY_PAYLOAD_SIZE then |data| else RELAY_PAYLOAD_SIZE;
      SplitCarries(data[batch..]);
      assert Split(data)[1..] == Split(data[batch..]);
      assert data[..batch] + data[batch..] == data;
    }
  }

  lemma {:induction false} CarriedConcat(a: seq<Frame>, b: seq<Frame>)
    ensures Carried(a + b) == Carried(a) + Carried(b)
  {
    if a == [] {
      assert a + b == b;
    } else {
      assert (a + b)[0] == a[0] && (a + b)[1..] == a[1..] + b;
      CarriedConcat(a[1..], b);
      Regroup(if a[0].kind == RELAY_DATA then a[0].payload else [], Carried(a[1..]), Carried(b));
    }
  }

  // -- The whole path -------------------------------------------------------

  /**
   * `outbound` is what the sender's socket has not taken yet, `uplink` and
   * `downlink` are bytes on the two connections, `unread` and `pending` the
   * server's input and output. The frames in flight are history.
   */
  datatype Path = Path(
    written: seq<byte>,
    outbound: seq<byte>, uplink: seq<byte>, unread: seq<byte>, upFrames: seq<Frame>,
    pending: seq<byte>, downlink: seq<byte>, downFrames: seq<Frame>,
    inbox: seq<byte>, closed: bool, read: seq<byte>)

  const START := Path([], [], [], [], [], [], [], [], [], false, [])

  datatype Act =
    | Write(data: seq<byte>)
    | WriteControl(kind: byte)
    | Send(count: nat)
    | Receive(count: nat)
    | Forward
    | AnnounceClose(reason: seq<byte>)
    | Flush(count: nat)
    | TakeFrame
    | Read(count: nat)

  function Onto(fs: seq<Frame>, bytes: seq<byte>): seq<byte> { bytes + EncodeAll(fs) }

  /** None where the action is impossible or the party gives up. */
  function After(s: Path, a: Act): Option<Path> {
    match a
    case Write(data) =>
      Some(s.(written := s.written + data, outbound := Onto(Split(data), s.outbound), upFrames := s.upFrames + Split(data)))
    case WriteControl(kind) =>
      if kind != KEEP_ALIVE && kind != RELAY_CLOSE then None
      else Some(s.(outbound := Onto([Frame(kind, 0, [])], s.outbound), upFrames := s.upFrames + [Frame(kind, 0, [])]))
    case Send(count) =>
      if count > |s.outbound| then None
      else Some(s.(uplink := s.uplink + s.outbound[..count], outbound := s.outbound[count..]))
    case Receive(count) =>
      if count > |s.uplink| then None
      else Some(s.(unread := s.unread + s.uplink[..count], uplink := s.uplink[count..]))
    case Forward =>
      var next := NextFrame(s.unread);
      if !next.Ready? || s.upFrames == [] then None
      else
        var f, taken := next.frame, s.(unread := next.rest, upFrames := s.upFrames[1..]);
        if f.kind == RELAY_DATA || f.kind == RELAY_CLOSE then
          var g := Frame(f.kind, 0, f.payload);
          Some(taken.(pending := Onto([g], s.pending), downFrames := s.downFrames + [g]))
        else if f.kind == KEEP_ALIVE then Some(taken)
        else None
    case AnnounceClose(reason) =>
      var g := Frame(RELAY_CLOSE, 0, reason);
      if |reason| > MAX_FRAME_LENGTH then None
      else Some(s.(pending := Onto([g], s.pending), downFrames := s.downFrames + [g]))
    case Flush(count) =>
      if count > |s.pending| then None
      else Some(s.(downlink := s.downlink + s.pending[..count], pending := s.pending[count..]))
    case TakeFrame =>
      var next := NextFrame(s.downlink);
      if s.closed || !next.Ready? || s.downFrames == [] then None
      else
        var f, taken := next.frame, s.(downlink := next.rest, downFrames := s.downFrames[1..]);
        if f.kind == RELAY_DATA then Some(taken.(inbox := s.inbox + f.payload))
        else if f.kind == RELAY_CLOSE then Some(taken.(closed := true))
        else if f.kind == KEEP_ALIVE then Some(taken)
        else None
    case Read(count) =>
      if count > |s.inbox| then None
      else Some(s.(read := s.read + s.inbox[..count], inbox := s.inbox[count..]))
  }

  function Play(acts: seq<Act>): Option<Path> {
    if acts == [] then Some(START)
    else
      var before := Play(acts[..|acts| - 1]);
      if before.None? then None else After(before.value, acts[|acts| - 1])
  }

  /** Both legs hold whole frames, and no stream byte is missing or extra. */
  ghost predicate Inv(s: Path) {
    && AllSendable(s.upFrames) && AllSendable(s.downFrames)
    && s.unread + s.uplink + s.outbound == EncodeAll(s.upFrames)
    && s.downlink + s.pending == EncodeAll(s.downFrames)
    && s.written == s.read + s.inbox + Carried(s.downFrames) + Carried(s.upFrames)
  }

  lemma FrameOff(buffered: seq<byte>, coming: seq<byte>, fs: seq<Frame>)
    requires AllSendable(fs) && buffered + coming == EncodeAll(fs) && NextFrame(buffered).Ready?
    ensures fs != [] && NextFrame(buffered).frame == fs[0]
    ensures NextFrame(buffered).rest + coming == EncodeAll(fs[1..])
  {
    if fs != [] {
      NextOfStream(buffered, coming, fs[0], EncodeAll(fs[1..]));
    }
  }

  /** The frame at the head of a leg is never refused. */
  lemma NeverRefused(buffered: seq<byte>, coming: seq<byte>, fs: seq<Frame>)
    requires AllSendable(fs) && buffered + coming == EncodeAll(fs)
    ensures NextFrame(buffered) != Rejected
  {
    if fs != [] {
      NextOfStream(buffered, coming, fs[0], EncodeAll(fs[1..]));
    }
  }

  lemma {:induction false} MoreFrames(a: seq<byte>, b: seq<byte>, fs: seq<Frame>, more: seq<Frame>)
    requires a + b == EncodeAll(fs)
    ensures a + Onto(more, b) == EncodeAll(fs + more)
  {
    EncodeAllConcat(fs, more);
    hide EncodeAll;
    Regroup(a, b, EncodeAll(more));
  }

  lemma Shifted(a: seq<byte>, b: seq<byte>, count: nat)
    requires count <= |b|
    ensures (a + b[..count]) + b[count..] == a + b
  {
  }

  lemma WriteKeeps(s: Path, fs: seq<Frame>, data: seq<byte>, after: Path)
    requires Inv(s) && AllSendable(fs) && Carried(fs) == data
    requires after == s.(written := s.written + data, outbound := Onto(fs, s.outbound), upFrames := s.upFrames + fs)
    ensures Inv(after)
  {
    hide EncodeAll, Carried, Sendable, Onto;
    MoreFrames(s.unread + s.uplink, s.outbound, s.upFrames, fs);
    CarriedConcat(s.upFrames, fs);
    Regroup(s.read + s.inbox + Carried(s.downFrames), Carried(s.upFrames), data);
  }

  lemma AnnounceKeeps(s: Path, g: Frame, after: Path)
    requires Inv(s) && Sendable(g) && g.kind == RELAY_CLOSE
    requires after == s.(pending := Onto([g], s.pending), downFrames := s.downFrames + [g])
    ensures Inv(after)
  {
    CarriedOne(g);
    hide EncodeAll, Carried, Sendable, Onto;
    MoreFrames(s.downlink, s.pending, s.downFrames, [g]);
    CarriedConcat(s.downFrames, [g]);
    assert Carried(s.downFrames) + [] == Carried(s.downFrames);
  }

  lemma CarriedOne(f: Frame)
    ensures Carried([f]) == if f.kind == RELAY_DATA then f.payload else []
  {
    assert [f][1..] == [] && f.payload + [] == f.payload;
  }

  lemma ForwardKeeps(s: Path)
    requires Inv(s) && After(s, Forward).Some?
    ensures Inv(After(s, Forward).value)
  {
    var next, after := NextFrame(s.unread), After(s, Forward).value;
    Regroup(s.unread, s.uplink, s.outbound);
    FrameOff(s.unread, s.uplink + s.outbound, s.upFrames);
    Regroup(next.rest, s.uplink, s.outbound);
    var f := s.upFrames[0];
    var g, carried := Frame(f.kind, 0, f.payload), if f.kind == RELAY_DATA then f.payload else [];
    assert Carried(s.upFrames) == carried + Carried(s.upFrames[1..]);
    CarriedOne(g);
    hide EncodeAll, Carried, Onto, NextFrame;
    assert Sendable(f);
    if f.kind == KEEP_ALIVE {
      assert [] + Carried(s.upFrames[1..]) == Carried(s.upFrames[1..]);
    } else {
      MoreFrames(s.downlink, s.pending, s.downFrames, [g]);
      CarriedConcat(s.downFrames, [g]);
      MoveFront(s.read + s.inbox, Carried(s.downFrames), carried, Carried(s.upFrames[1..]));
    }
  }

  lemma MoveFront(a: seq<byte>, b: seq<byte>, c: seq<byte>, d: seq<byte>)
    ensures a + b + (c + d) == a + (b + c) + d
  {
  }

  lemma CarriedFirst(fs: seq<Frame>)
    requires fs != []
    ensures Carried(fs) == (if fs[0].kind == RELAY_DATA then fs[0].payload else []) + Carried(fs[1..])
  {
  }

  lemma TakeKeeps(s: Path)
    requires Inv(s) && After(s, TakeFrame).Some?
    ensures Inv(After(s, TakeFrame).value)
  {
    hide EncodeAll, Carried, Onto, NextFrame, Sendable;
    FrameOff(s.downlink, s.pending, s.downFrames);
    var f, rest := s.downFrames[0], Carried(s.downFrames[1..]);
    var carried := if f.kind == RELAY_DATA then f.payload else [];
    CarriedFirst(s.downFrames);
    Regroup(s.read, s.inbox, carried);
    Regroup(s.read + s.inbox, carried, rest);
    assert s.inbox + [] == s.inbox;
  }

  lemma MoveKeeps(s: Path, a: Act)
    requires Inv(s) && After(s, a).Some? && (a.Send? || a.Receive? || a.Flush? || a.Read?)
    ensures Inv(After(s, a).value)
  {
    hide EncodeAll, Carried, Onto, NextFrame, Sendable;
    match a
    case Send(count) =>
      Shifted(s.uplink, s.outbound, count);
      Regroup(s.unread, s.uplink, s.outbound);
      Regroup(s.unread, s.uplink + s.outbound[..count], s.outbound[count..]);
    case Receive(count) => Shifted(s.unread, s.uplink, count);
    case Flush(count) => Shifted(s.downlink, s.pending, count);
    case Read(count) => Shifted(s.read, s.inbox, count);
  }

  lemma ActKeeps(s: Path, a: Act)
    requires Inv(s) && After(s, a).Some?
    ensures Inv(After(s, a).value)
  {
    var after := After(s, a).value;
    if a.Write? {
      SplitCarries(a.data);
      hide Inv, Split;
      WriteKeeps(s, Split(a.data), a.data, after);
    } else if a.WriteControl? {
      var f := Frame(a.kind, 0, []);
      CarriedOne(f);
      assert s.written + [] == s.written;
      hide Inv;
      WriteKeeps(s, [f], [], after);
    } else if a.Forward? {
      ForwardKeeps(s);
    } else if a.AnnounceClose? {
      AnnounceKeeps(s, Frame(RELAY_CLOSE, 0, a.reason), after);
    } else if a.TakeFrame? {
      TakeKeeps(s);
    } else {
      MoveKeeps(s, a);
    }
  }

  lemma {:induction false} PlayKeeps(acts: seq<Act>)
    requires Play(acts).Some?
    ensures Inv(Play(acts).value)
  {
    hide After, Inv;
    if acts == [] {
      StartKeeps();
    } else {
      PlayKeeps(acts[..|acts| - 1]);
      ActKeeps(Play(acts[..|acts| - 1]).value, acts[|acts| - 1]);
    }
  }

  lemma StartKeeps()
    ensures Inv(START)
  {
  }

  /** Whatever the splits, partial sends and compactions: what one client reads is a prefix of what the other wrote. */
  lemma ReadsArePrefix(acts: seq<Act>)
    requires Play(acts).Some?
    ensures Play(acts).value.read <= Play(acts).value.written
  {
    PlayKeeps(acts);
  }

  /** Nothing is lost either: with every buffer empty, everything written has been read. */
  lemma NothingLost(acts: seq<Act>)
    requires Play(acts).Some?
    ensures var s := Play(acts).value;
            s.outbound + s.uplink + s.unread + s.pending + s.downlink + s.inbox == [] ==> s.read == s.written
  {
    PlayKeeps(acts);
    var s := Play(acts).value;
    if s.outbound + s.uplink + s.unread + s.pending + s.downlink + s.inbox == [] {
      assert |s.outbound| == 0 && |s.uplink| == 0 && |s.unread| == 0 && |s.pending| == 0 && |s.downlink| == 0 && |s.inbox| == 0;
      NoBytesNoFrames(s.upFrames);
      NoBytesNoFrames(s.downFrames);
    }
  }

  lemma NoBytesNoFrames(fs: seq<Frame>)
    ensures EncodeAll(fs) == [] ==> fs == []
  {
  }

  /** The server and the reading client never meet a header they refuse. */
  lemma HeadersAccepted(acts: seq<Act>)
    requires Play(acts).Some?
    ensures NextFrame(Play(acts).value.unread) != Rejected && NextFrame(Play(acts).value.downlink) != Rejected
  {
    PlayKeeps(acts);
    var s := Play(acts).value;
    Regroup(s.unread, s.uplink, s.outbound);
    NeverRefused(s.unread, s.uplink + s.outbound, s.upFrames);
    NeverRefused(s.downlink, s.pending, s.downFrames);
  }

  // -- The client's end -----------------------------------------------------

  datatype Status = Finished | PeerClosed | Failed | Blocked

  class RelayChannel {
    var inbox: seq<byte>
    var inboxConsumed: nat
    var closed: bool
    /** Bytes handed to the control connection. */
    var wire: seq<byte>

    ghost predicate Valid()
      reads this
    {
      inboxConsumed <= |inbox|
    }

    ghost function Unread(): seq<byte>
      requires Valid()
      reads this
    {
      inbox[inboxConsumed..]
    }

    constructor ()
      ensures Valid() && Unread() == [] && !closed && wire == []
    {
      inbox, inboxConsumed, closed, wire := [], 0, false, [];
    }

    method WriteBytes(data: seq<byte>)
      modifies this`wire
      ensures wire == Onto(Split(data), old(wire))
    {
      hide Encode;
      var offset := 0;
      assert data[0..] == data;
      while offset < |data|
        invariant offset <= |data| && Onto(Split(data[offset..]), wire) == Onto(Split(data), old(wire))
      {
        var batch := if |data| - offset < RELAY_PAYLOAD_SIZE then |data| - offset else RELAY_PAYLOAD_SIZE;
        ghost var left := data[offset..];
        assert left[..batch] == data[offset..offset + batch] && left[batch..] == data[offset + batch..];
        var f := Frame(RELAY_DATA, 0, data[offset..offset + batch]);
        assert Split(left)[0] == f && Split(left)[1..] == Split(left[batch..]);
        Regroup(wire, Encode(f), EncodeAll(Split(left[batch..])));
        wire := wire + Encode(f);
        offset := offset + batch;
      }
      assert data[offset..] == [] && wire + [] == wire;
    }

    /** False where the frame ends the transfer with an error. */
    method ReceiveFrame(f: Frame) returns (ok: bool)
      requires Valid()
      modifies this`inbox, this`inboxConsumed, this`closed
      ensures Valid() && ok == (f.kind in {RELAY_DATA, RELAY_CLOSE, KEEP_ALIVE})
      ensures Unread() == old(Unread()) + if f.kind == RELAY_DATA then f.payload else []
      ensures closed == (old(closed) || f.kind == RELAY_CLOSE)
    {
      if f.kind == RELAY_DATA {
        if inboxConsumed > 0 {
          inbox, inboxConsumed := inbox[inboxConsumed..], 0;
        }
        inbox := inbox + f.payload;
        return true;
      }
      if f.kind == RELAY_CLOSE {
        closed := true;
        return true;
      }
      ok := f.kind == KEEP_ALIVE;
    }

    /** Copies out of the inbox, fetching frames only when it is empty. */
    method ReadExactly(length: nat, incoming: seq<Frame>) returns (bytes: seq<byte>, used: nat, status: Status)
      requires Valid()
      modifies this`inbox, this`inboxConsumed, this`closed
      ensures Valid() && used <= |incoming| && |bytes| <= length
      ensures bytes + Unread() == old(Unread()) + Carried(incoming[..used])
      ensures status == Finished <==> |bytes| == length
      ensures status == PeerClosed ==> closed && Unread() == []
      ensures status == Failed ==> used > 0 && incoming[used - 1].kind !in {RELAY_DATA, RELAY_CLOSE, KEEP_ALIVE}
      ensures status == Blocked ==> used == |incoming| && !closed && Unread() == []
    {
      bytes, used := [], 0;
      ghost var start := Unread();
      assert start + [] == start && [] + start == start && incoming[..0] == [];
      while |bytes| < length
        invariant Valid() && used <= |incoming| && |bytes| <= length
        invariant bytes + Unread() == start + Carried(incoming[..used])
        decreases |incoming| - used, length - |bytes|
      {
        if inboxConsumed < |inbox| {
          var part := TakePart(length - |bytes|);
          Regroup(bytes, part, Unread());
          bytes := bytes + part;
        } else {
          if closed {
            return bytes, used, PeerClosed;
          }
          if used == |incoming| {
            return bytes, used, Blocked;
          }
          ghost var before := Unread();
          var ok := ReceiveFrame(incoming[used]);
          Fetched(start, bytes, before, incoming, used, Unread());
          used := used + 1;
          if !ok {
            return bytes, used, Failed;
          }
        }
      }
      status := Finished;
    }

    lemma Fetched(start: seq<byte>, bytes: seq<byte>, before: seq<byte>, incoming: seq<Frame>, used: nat, after: seq<byte>)
      requires used < |incoming| && bytes + before == start + Carried(incoming[..used])
      requires after == before + if incoming[used].kind == RELAY_DATA then incoming[used].payload else []
      ensures bytes + after == start + Carried(incoming[..used + 1])
    {
      var f := incoming[used];
      var more := if f.kind == RELAY_DATA then f.payload else [];
      assert incoming[..used + 1] == incoming[..used] + [f];
      CarriedConcat(incoming[..used], [f]);
      CarriedOne(f);
      hide Carried;
      Regroup(bytes, before, more);
      Regroup(start, Carried(incoming[..used]), more);
    }

    method TakePart(wanted: nat) returns (part: seq<byte>)
      requires Valid() && Unread() != [] && wanted > 0
      modifies this`inbox, this`inboxConsumed
      ensures Valid() && 0 < |part| <= wanted && old(Unread()) == part + Unread()
    {
      var available := |inbox| - inboxConsumed;
      var take := if available < wanted then available else wanted;
      part := inbox[inboxConsumed..inboxConsumed + take];
      inboxConsumed := inboxConsumed + take;
      if inboxConsumed == |inbox| {
        inbox, inboxConsumed := [], 0;
      }
    }
  }
}
