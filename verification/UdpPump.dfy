/** One turn of the protocol engine, and the blocking calls that drive it.
    The clock and the socket enter as a schedule of rounds. */
module UdpPump {
  import opened Bytes
  import opened SequenceNumbers
  import opened Congestion
  import opened UdpPackets
  import opened UdpHeader
  import opened UdpSender
  import opened UdpReceiver
  import opened UdpSystem

  datatype Arrival = Arrival(bytes: seq<byte>, atUs: nat)

  /** What the outside supplies to one turn: clock readings and datagrams. */
  datatype Round = Round(nowUs: nat, fillUs: nat, arrivals: seq<Arrival>)

  /** One turn goes through these phases in order. */
  datatype Phase = TimeoutPhase(now: nat) | FillPhase(now: nat) | ReceivePhase(arrival: Arrival) | DeliverPhase | AckPhase

  function ReceivePhases(arrivals: seq<Arrival>): (phases: seq<Phase>)
    ensures |phases| == |arrivals|
    ensures forall i :: 0 <= i < |arrivals| ==> phases[i] == ReceivePhase(arrivals[i])
  {
    seq(|arrivals|, i requires 0 <= i < |arrivals| => ReceivePhase(arrivals[i]))
  }

  function SendPhases(r: Round): seq<Phase> { [TimeoutPhase(r.nowUs)] + [FillPhase(r.fillUs)] }

  function PhasesOf(r: Round): seq<Phase> {
    SendPhases(r) + ReceivePhases(r.arrivals) + [DeliverPhase, AckPhase]
  }

  function Quiet(e: Endpoint): Outcome { Outcome(e, [], None) }

  function FromSender(e: Endpoint, o: Sending): Outcome {
    Outcome(e.(tx := o.tx), o.sent, if o.peerSilent then Some(PeerSilent) else None)
  }

  /** A datagram off the socket; one that does not parse is dropped. */
  function ReceiveOne(t: Tuning, e: Endpoint, a: Arrival): Outcome {
    match Parse(a.bytes)
    case None => Quiet(e)
    case Some(p) => ProcessPacket(Wrapping, t, e, p, a.atUs)
  }

  function DoPhase(t: Tuning, e: Endpoint, phase: Phase): Outcome {
    match phase
    case TimeoutPhase(now) => FromSender(e, RetransmitTimedOut(t, e.tx, e.rx.receiveNext, now))
    case FillPhase(now) => FromSender(e, FillWindow(Wrapping, t, e.tx, e.rx.receiveNext, now))
    case ReceivePhase(a) => ReceiveOne(t, e, a)
    case DeliverPhase => Quiet(e.(rx := DeliverInOrder(Wrapping, e.rx)))
    case AckPhase =>
      if e.ackPending then Outcome(e.(ackPending := false), [AckPacket(Wrapping, e.rx)], None) else Quiet(e)
  }

  function Then(first: Outcome, second: Outcome): Outcome {
    if first.failure.Some? then first else second.(sent := first.sent + second.sent)
  }

  /** A failure ends the turn on the spot. */
  function RunPhases(t: Tuning, e: Endpoint, phases: seq<Phase>): Outcome {
    if phases == [] then Quiet(e)
    else
      var before := RunPhases(t, e, phases[..|phases| - 1]);
      Then(before, DoPhase(t, before.end, phases[|phases| - 1]))
  }

  function Pump(t: Tuning, e: Endpoint, r: Round): Outcome { RunPhases(t, e, PhasesOf(r)) }

  lemma RunOneMore(t: Tuning, e: Endpoint, phases: seq<Phase>, phase: Phase)
    ensures var before := RunPhases(t, e, phases);
            RunPhases(t, e, phases + [phase]) == Then(before, DoPhase(t, before.end, phase))
  {
    assert (phases + [phase])[..|phases|] == phases;
  }

  lemma RunFirst(t: Tuning, e: Endpoint, phase: Phase)
    ensures RunPhases(t, e, [phase]) == DoPhase(t, e, phase)
  {
    assert [phase][..0] == [];
    assert RunPhases(t, e, []) == Quiet(e);
    assert [] + DoPhase(t, e, phase).sent == DoPhase(t, e, phase).sent;
  }

  lemma {:induction false} FailureIsFinal(t: Tuning, e: Endpoint, phases: seq<Phase>, more: seq<Phase>)
    requires RunPhases(t, e, phases).failure.Some?
    ensures RunPhases(t, e, phases + more) == RunPhases(t, e, phases)
    decreases |more|
  {
    if more == [] {
      assert phases + more == phases;
    } else {
      var most := more[..|more| - 1];
      assert phases + more == (phases + most) + [more[|more| - 1]];
      FailureIsFinal(t, e, phases, most);
      RunOneMore(t, e, phases + most, more[|more| - 1]);
    }
  }

  /** The send half of a turn, and what a silent peer does to the rest of it. */
  lemma SendHalf(t: Tuning, e: Endpoint, r: Round)
    ensures var timeout := DoPhase(t, e, TimeoutPhase(r.nowUs));
            && RunPhases(t, e, SendPhases(r)) == Then(timeout, DoPhase(t, timeout.end, FillPhase(r.fillUs)))
            && (timeout.failure.Some? ==> Pump(t, e, r) == timeout)
  {
    var first, rest := [TimeoutPhase(r.nowUs)], [FillPhase(r.fillUs)] + ReceivePhases(r.arrivals) + [DeliverPhase, AckPhase];
    RunFirst(t, e, first[0]);
    RunOneMore(t, e, first, FillPhase(r.fillUs));
    assert PhasesOf(r) == first + rest;
    if RunPhases(t, e, first).failure.Some? {
      FailureIsFinal(t, e, first, rest);
    }
  }

  /** A datagram that breaks the channel ends the whole turn. */
  lemma BrokenBy(t: Tuning, e: Endpoint, r: Round, i: nat)
    requires i < |r.arrivals|
    requires RunPhases(t, e, SendPhases(r) + ReceivePhases(r.arrivals)[..i + 1]).failure.Some?
    ensures Pump(t, e, r) == RunPhases(t, e, SendPhases(r) + ReceivePhases(r.arrivals)[..i + 1])
  {
    var received := ReceivePhases(r.arrivals);
    var more := received[i + 1..] + [DeliverPhase, AckPhase];
    assert received == received[..i + 1] + received[i + 1..];
    assert PhasesOf(r) == (SendPhases(r) + received[..i + 1]) + more;
    FailureIsFinal(t, e, SendPhases(r) + received[..i + 1], more);
  }

  // -- Blocking calls -------------------------------------------------------

  datatype Status = Finished | Blocked | PeerClosed | Broken(failure: Failure)

  /** Where a blocking call ended, what it sent, and how many rounds it took. */
  datatype Progress = Progress(end: Endpoint, sent: seq<Packet>, used: nat, status: Status)

  function After(o: Outcome, rest: Progress): Progress {
    if o.failure.Some? then Progress(o.end, o.sent, 1, Broken(o.failure.value))
    else Progress(rest.end, o.sent + rest.sent, 1 + rest.used, rest.status)
  }

  function WriteLoop(t: Tuning, e: Endpoint, rounds: seq<Round>): Progress
    decreases |rounds|
  {
    if Drained(e.tx) then Progress(e.(tx := Reclaim(e.tx)), [], 0, Finished)
    else if rounds == [] then Progress(e, [], 0, Blocked)
    else
      var o := Pump(t, e, rounds[0]);
      After(o, WriteLoop(t, o.end, rounds[1..]))
  }

  function FlushLoop(t: Tuning, e: Endpoint, rounds: seq<Round>): Progress
    decreases |rounds|
  {
    if Flushed(e.tx) then Progress(e, [], 0, Finished)
    else if rounds == [] then Progress(e, [], 0, Blocked)
    else
      var o := Pump(t, e, rounds[0]);
      After(o, FlushLoop(t, o.end, rounds[1..]))
  }

  datatype Taking = Taking(progress: Progress, bytes: seq<byte>)

  function ReadLoop(t: Tuning, e: Endpoint, wanted: nat, rounds: seq<Round>): Taking
    decreases |rounds|, wanted
  {
    if wanted == 0 then Taking(Progress(e, [], 0, Finished), [])
    else if Readable(e.rx) then
      var part := ReadPart(e.rx, wanted);
      var rest := ReadLoop(t, e.(rx := AfterRead(e.rx, wanted)), wanted - |part|, rounds);
      rest.(bytes := part + rest.bytes)
    else if EndOfStream(e.rx) then Taking(Progress(e, [], 0, PeerClosed), [])
    else if rounds == [] then Taking(Progress(e, [], 0, Blocked), [])
    else
      var o := Pump(t, e, rounds[0]);
      var rest := ReadLoop(t, o.end, wanted, rounds[1..]);
      Taking(After(o, rest.progress), if o.failure.Some? then [] else rest.bytes)
  }

  /** A finished read returns exactly as many bytes as asked for. */
  lemma {:induction false} ReadIsExact(t: Tuning, e: Endpoint, wanted: nat, rounds: seq<Round>)
    ensures var r := ReadLoop(t, e, wanted, rounds);
            |r.bytes| <= wanted && (r.progress.status == Finished ==> |r.bytes| == wanted)
    decreases |rounds|, wanted
  {
    if wanted > 0 {
      if Readable(e.rx) {
        ReadIsExact(t, e.(rx := AfterRead(e.rx, wanted)), wanted - |ReadPart(e.rx, wanted)|, rounds);
      } else if rounds != [] && !EndOfStream(e.rx) {
        ReadIsExact(t, Pump(t, e, rounds[0]).end, wanted, rounds[1..]);
      }
    }
  }

  // -- The engine takes steps of the state machine --------------------------

  /** An action of an endpoint, or datagrams of its peer reaching the network before it. */
  datatype Move = Do(action: Action) | Hear(packets: seq<Packet>)

  function EffectOfMove(t: Tuning, x: Peer, move: Move): Effect {
    match move
    case Do(action) => EffectOf(Wrapping, t, x, action)
    case Hear(packets) => Moved(Hears(x, packets), [])
  }

  function Perform(t: Tuning, x: Peer, moves: seq<Move>): Effect {
    if moves == [] then Moved(x, [])
    else
      var m := Perform(t, x, moves[..|moves| - 1]);
      if !m.Moved? then m
      else
        var n := EffectOfMove(t, m.peer, moves[|moves| - 1]);
        if n.Moved? then n.(sent := m.sent + n.sent) else n
  }

  lemma PerformNext(t: Tuning, x: Peer, moves: seq<Move>, move: Move)
    requires Perform(t, x, moves).Moved?
    ensures var m := Perform(t, x, moves);
            var n := EffectOfMove(t, m.peer, move);
            Perform(t, x, moves + [move]) == if n.Moved? then n.(sent := m.sent + n.sent) else n
  {
    assert (moves + [move])[..|moves|] == moves;
    hide EffectOfMove;
  }

  lemma {:induction false} PerformConcat(t: Tuning, x: Peer, first: seq<Move>, second: seq<Move>)
    requires Perform(t, x, first).Moved? && Perform(t, Perform(t, x, first).peer, second).Moved?
    ensures var m := Perform(t, x, first);
            var n := Perform(t, m.peer, second);
            Perform(t, x, first + second) == n.(sent := m.sent + n.sent)
    decreases |second|
  {
    hide EffectOfMove;
    var m := Perform(t, x, first);
    if second == [] {
      assert first + second == first && m.sent + [] == m.sent;
    } else {
      var most, last := second[..|second| - 1], second[|second| - 1];
      PerformConcat(t, x, first, most);
      assert first + second == (first + most) + [last] && second == most + [last];
      PerformNext(t, x, first + most, last);
      PerformNext(t, m.peer, most, last);
      var n := Perform(t, m.peer, most);
      Regroup(m.sent, n.sent, EffectOfMove(t, n.peer, last).sent);
    }
  }

  /** From `x`, the moves reach an endpoint having sent these datagrams. */
  ghost predicate Leads(t: Tuning, x: Peer, moves: seq<Move>, end: Endpoint, sent: seq<Packet>,
                        inbox: set<Packet>, written: seq<byte>, read: seq<byte>)
  {
    var m := Perform(t, x, moves);
    && m.Moved? && m.sent == sent && m.peer.end == end
    && m.peer.inbox == inbox && m.peer.written == written && m.peer.read == read
  }

  /** What is on its way once all of `heard` has been sent. */
  function Inbox(inbox: set<Packet>, heard: seq<seq<Packet>>): set<Packet> {
    if heard == [] then inbox
    else
      var last := heard[|heard| - 1];
      Inbox(inbox, heard[..|heard| - 1]) + set p | p in last
  }

  /** The datagrams a phase reads are on their way, and its clock is running. */
  predicate Supplied(inbox: set<Packet>, phase: Phase) {
    match phase
    case FillPhase(now) => now > 0
    case ReceivePhase(a) => Parse(a.bytes).Some? ==> Parse(a.bytes).value in inbox
    case _ => true
  }

  /** Before each phase the peer may have sent more. */
  predicate AllSupplied(inbox: set<Packet>, phases: seq<Phase>, heard: seq<seq<Packet>>): (supplied: bool)
    ensures supplied ==> |heard| == |phases|
  {
    && |heard| == |phases|
    && forall i :: 0 <= i < |phases| ==> Supplied(Inbox(inbox, heard[..i + 1]), phases[i])
  }

  /** The action a phase takes, if any. */
  function ActionOf(e: Endpoint, phase: Phase): Option<Action> {
    match phase
    case TimeoutPhase(now) => Some(Timeout(now))
    case FillPhase(now) => Some(Fill(now))
    case ReceivePhase(a) => if Parse(a.bytes).Some? then Some(Receive(Parse(a.bytes).value, a.atUs)) else None
    case DeliverPhase => Some(Deliver)
    case AckPhase => if e.ackPending then Some(Acknowledge) else None
  }

  function Taken(action: Option<Action>): seq<Move> { if action.Some? then [Do(action.value)] else [] }

  function PhaseMoves(t: Tuning, e: Endpoint, phases: seq<Phase>, heard: seq<seq<Packet>>): seq<Move>
    requires |heard| == |phases|
  {
    if phases == [] then []
    else
      var n := |phases| - 1;
      PhaseMoves(t, e, phases[..n], heard[..n]) + [Hear(heard[n])] + Taken(ActionOf(RunPhases(t, e, phases[..n]).end, phases[n]))
  }

  lemma PhaseEffect(t: Tuning, y: Peer, phase: Phase)
    requires Supplied(y.inbox, phase) && DoPhase(t, y.end, phase).failure == None
    ensures var o, action := DoPhase(t, y.end, phase), ActionOf(y.end, phase);
            if action.None? then o == Quiet(y.end)
            else
              var m := EffectOf(Wrapping, t, y, action.value);
              && m.Moved? && m.sent == o.sent && m.peer.end == o.end
              && m.peer.inbox == y.inbox && m.peer.written == y.written && m.peer.read == y.read
  {
    hide RetransmitTimedOut, SendWhileAllowed, ProcessPacket, DigestOf, DeliverInOrder, AckPacket, Parse, Accrued, Refilled,
      Payloads;
    if phase.FillPhase? {
      NeverSilent(Refilled(t, y.end.tx, phase.now), y.end.rx.receiveNext, phase.now);
    }
  }

  lemma PhaseIsAction(t: Tuning, y: Peer, phase: Phase)
    requires Supplied(y.inbox, phase) && DoPhase(t, y.end, phase).failure == None
    ensures var o := DoPhase(t, y.end, phase);
            Leads(t, y, Taken(ActionOf(y.end, phase)), o.end, o.sent, y.inbox, y.written, y.read)
  {
    hide DoPhase, ActionOf, EffectOf, Supplied, Perform;
    PhaseEffect(t, y, phase);
    var action := ActionOf(y.end, phase);
    if action.Some? {
      OneMove(t, y, action.value);
    } else {
      NoMoves(t, y);
    }
  }

  lemma {:induction false} NeverSilent(tx: Sender, ack: nat, now: nat)
    ensures !SendWhileAllowed(Wrapping, tx, ack, now).peerSilent
    decreases |tx.outgoing| - tx.outgoingConsumed
  {
    if MaySend(tx) {
      NeverSilent(SendOne(Wrapping, tx, now), ack, now);
    }
  }

  /** Phases that do not fail are a sequence of actions of the state machine, so
      every guarantee about its runs covers the engine. */
  lemma {:induction false} PhasesAreSteps(t: Tuning, x: Peer, phases: seq<Phase>, heard: seq<seq<Packet>>)
    requires AllSupplied(x.inbox, phases, heard) && RunPhases(t, x.end, phases).failure == None
    ensures var o := RunPhases(t, x.end, phases);
            Leads(t, x, PhaseMoves(t, x.end, phases, heard), o.end, o.sent, Inbox(x.inbox, heard), x.written, x.read)
    decreases |phases|
  {
    hide DoPhase, Supplied, ActionOf, EffectOf, Taken;
    if phases != [] {
      var n := |phases| - 1;
      forall i | 0 <= i < n ensures Supplied(Inbox(x.inbox, heard[..n][..i + 1]), phases[..n][i]) {
        assert heard[..n][..i + 1] == heard[..i + 1];
      }
      PhasesAreSteps(t, x, phases[..n], heard[..n]);
      var before, moves := RunPhases(t, x.end, phases[..n]), PhaseMoves(t, x.end, phases[..n], heard[..n]);
      PerformNext(t, x, moves, Hear(heard[n]));
      var y := Perform(t, x, moves + [Hear(heard[n])]).peer;
      assert before.sent + [] == before.sent && heard[..n + 1] == heard;
      PhaseIsAction(t, y, phases[n]);
      PerformConcat(t, x, moves + [Hear(heard[n])], Taken(ActionOf(y.end, phases[n])));
    }
  }

  // -- And so do the blocking calls -----------------------------------------

  /** What the peer sends in between, round by round and phase by phase. */
  type Supply = seq<seq<seq<Packet>>>

  predicate Provided(inbox: set<Packet>, rounds: seq<Round>, supply: Supply)
    decreases |rounds|
  {
    && |supply| == |rounds|
    && (rounds != [] ==>
          && AllSupplied(inbox, PhasesOf(rounds[0]), supply[0])
          && Provided(Inbox(inbox, supply[0]), rounds[1..], supply[1..]))
  }

  function TurnMoves(t: Tuning, e: Endpoint, r: Round, heard: seq<seq<Packet>>): seq<Move>
    requires |heard| == |PhasesOf(r)|
  {
    PhaseMoves(t, e, PhasesOf(r), heard)
  }

  ghost predicate Does(t: Tuning, x: Peer, moves: seq<Move>, p: Progress, written: seq<byte>, read: seq<byte>) {
    var m := Perform(t, x, moves);
    m.Moved? && m.sent == p.sent && m.peer.end == p.end && m.peer.written == written && m.peer.read == read
  }

  function WriteMoves(t: Tuning, x: Peer, rounds: seq<Round>, supply: Supply): seq<Move>
    requires Provided(x.inbox, rounds, supply)
    decreases |rounds|
  {
    if Drained(x.end.tx) then [Do(FinishWrite)]
    else if rounds == [] || Pump(t, x.end, rounds[0]).failure.Some? then []
    else
      TurnMoves(t, x.end, rounds[0], supply[0])
      + WriteMoves(t, AfterTurn(t, x, rounds[0], supply[0]), rounds[1..], supply[1..])
  }

  function FlushMoves(t: Tuning, x: Peer, rounds: seq<Round>, supply: Supply): seq<Move>
    requires Provided(x.inbox, rounds, supply)
    decreases |rounds|
  {
    if Flushed(x.end.tx) || rounds == [] || Pump(t, x.end, rounds[0]).failure.Some? then []
    else
      TurnMoves(t, x.end, rounds[0], supply[0])
      + FlushMoves(t, AfterTurn(t, x, rounds[0], supply[0]), rounds[1..], supply[1..])
  }

  function ReadMoves(t: Tuning, x: Peer, wanted: nat, rounds: seq<Round>, supply: Supply): seq<Move>
    requires Provided(x.inbox, rounds, supply)
    decreases |rounds|, wanted
  {
    var rx := x.end.rx;
    if wanted == 0 then []
    else if Readable(rx) then
      [Do(Read(wanted))] + ReadMoves(t, AfterTaking(x, wanted), wanted - |ReadPart(rx, wanted)|, rounds, supply)
    else if EndOfStream(rx) || rounds == [] || Pump(t, x.end, rounds[0]).failure.Some? then []
    else
      TurnMoves(t, x.end, rounds[0], supply[0])
      + ReadMoves(t, AfterTurn(t, x, rounds[0], supply[0]), wanted, rounds[1..], supply[1..])
  }

  /** The endpoint after a turn, with what has come in since. */
  function AfterTurn(t: Tuning, x: Peer, r: Round, heard: seq<seq<Packet>>): (y: Peer)
    requires AllSupplied(x.inbox, PhasesOf(r), heard) && Pump(t, x.end, r).failure == None
    ensures y.end == Pump(t, x.end, r).end && y.inbox == Inbox(x.inbox, heard) && y.written == x.written && y.read == x.read
    ensures Perform(t, x, TurnMoves(t, x.end, r, heard)) == Moved(y, Pump(t, x.end, r).sent)
  {
    PhasesAreSteps(t, x, PhasesOf(r), heard);
    Perform(t, x, TurnMoves(t, x.end, r, heard)).peer
  }

  function AfterTaking(x: Peer, wanted: nat): Peer
    requires Readable(x.end.rx)
  {
    WithReceiver(x, AfterRead(x.end.rx, wanted)).(read := x.read + ReadPart(x.end.rx, wanted))
  }

  lemma NoMoves(t: Tuning, x: Peer)
    ensures Perform(t, x, []) == Moved(x, [])
  {
  }

  lemma OneMove(t: Tuning, x: Peer, action: Action)
    requires EffectOf(Wrapping, t, x, action).Moved?
    ensures Perform(t, x, [Do(action)]) == EffectOf(Wrapping, t, x, action)
  {
    PerformNext(t, x, [], Do(action));
    assert [] + [Do(action)] == [Do(action)];
    assert [] + EffectOf(Wrapping, t, x, action).sent == EffectOf(Wrapping, t, x, action).sent;
  }

  lemma TakingIsRead(t: Tuning, x: Peer, wanted: nat)
    requires Readable(x.end.rx)
    ensures Perform(t, x, [Do(Read(wanted))]) == Moved(AfterTaking(x, wanted), [])
  {
    OneMove(t, x, Read(wanted));
  }

  lemma FinishIsReclaim(t: Tuning, x: Peer)
    requires Drained(x.end.tx)
    ensures Perform(t, x, [Do(FinishWrite)]) == Moved(WithSender(x, Reclaim(x.end.tx)), [])
  {
    OneMove(t, x, FinishWrite);
  }

  lemma {:induction false} WriteLoopIsSteps(t: Tuning, x: Peer, rounds: seq<Round>, supply: Supply)
    requires Provided(x.inbox, rounds, supply) && !WriteLoop(t, x.end, rounds).status.Broken?
    ensures Does(t, x, WriteMoves(t, x, rounds, supply), WriteLoop(t, x.end, rounds), x.written, x.read)
    decreases |rounds|
  {
    hide Pump, TurnMoves, AllSupplied, Perform, EffectOf, PhasesOf, Inbox;
    if Drained(x.end.tx) {
      FinishIsReclaim(t, x);
    } else if rounds != [] {
      var y := AfterTurn(t, x, rounds[0], supply[0]);
      WriteLoopIsSteps(t, y, rounds[1..], supply[1..]);
      PerformConcat(t, x, TurnMoves(t, x.end, rounds[0], supply[0]), WriteMoves(t, y, rounds[1..], supply[1..]));
    } else {
      NoMoves(t, x);
    }
  }

  /** A write that does not break is StartWrite, turns of the engine, and FinishWrite once it returns. */
  lemma WriteIsSteps(t: Tuning, x: Peer, data: seq<byte>, rounds: seq<Round>, supply: Supply)
    requires Provided(x.inbox, rounds, supply) && !x.end.tx.sentFin
    requires !WriteLoop(t, x.end.(tx := Queue(x.end.tx, data)), rounds).status.Broken?
    ensures var y := WithSender(x, Queue(x.end.tx, data)).(written := x.written + data);
            Does(t, x, [Do(StartWrite(data))] + WriteMoves(t, y, rounds, supply),
                 WriteLoop(t, x.end.(tx := Queue(x.end.tx, data)), rounds), x.written + data, x.read)
  {
    hide Provided, WriteLoop, WriteMoves;
    var y := WithSender(x, Queue(x.end.tx, data)).(written := x.written + data);
    OneMove(t, x, StartWrite(data));
    WriteLoopIsSteps(t, y, rounds, supply);
    PerformConcat(t, x, [Do(StartWrite(data))], WriteMoves(t, y, rounds, supply));
    assert [] + WriteLoop(t, y.end, rounds).sent == WriteLoop(t, y.end, rounds).sent;
  }

  /** A flush that does not break is turns of the engine. */
  lemma {:induction false} FlushIsSteps(t: Tuning, x: Peer, rounds: seq<Round>, supply: Supply)
    requires Provided(x.inbox, rounds, supply) && !FlushLoop(t, x.end, rounds).status.Broken?
    ensures Does(t, x, FlushMoves(t, x, rounds, supply), FlushLoop(t, x.end, rounds), x.written, x.read)
    decreases |rounds|
  {
    hide Pump, TurnMoves, AllSupplied, Perform, EffectOf, PhasesOf, Inbox;
    if !Flushed(x.end.tx) && rounds != [] {
      var y := AfterTurn(t, x, rounds[0], supply[0]);
      FlushIsSteps(t, y, rounds[1..], supply[1..]);
      PerformConcat(t, x, TurnMoves(t, x.end, rounds[0], supply[0]), FlushMoves(t, y, rounds[1..], supply[1..]));
    } else {
      NoMoves(t, x);
    }
  }

  /** A read that does not break is Reads and turns, and returns exactly what the Reads took. */
  lemma {:induction false} ReadIsSteps(t: Tuning, x: Peer, wanted: nat, rounds: seq<Round>, supply: Supply)
    requires Provided(x.inbox, rounds, supply) && !ReadLoop(t, x.end, wanted, rounds).progress.status.Broken?
    ensures var r := ReadLoop(t, x.end, wanted, rounds);
            Does(t, x, ReadMoves(t, x, wanted, rounds, supply), r.progress, x.written, x.read + r.bytes)
    decreases |rounds|, wanted
  {
    hide Pump, TurnMoves, AllSupplied, Perform, EffectOf, PhasesOf, Inbox;
    hide AfterRead, EndOfStream;
    var rx := x.end.rx;
    if wanted == 0 {
      NoMoves(t, x);
      assert x.read + [] == x.read;
    } else if Readable(rx) {
      var y, left := AfterTaking(x, wanted), wanted - |ReadPart(rx, wanted)|;
      TakingIsRead(t, x, wanted);
      ReadIsSteps(t, y, left, rounds, supply);
      PerformConcat(t, x, [Do(Read(wanted))], ReadMoves(t, y, left, rounds, supply));
      var rest := ReadLoop(t, y.end, left, rounds);
      assert [] + rest.progress.sent == rest.progress.sent;
      Regroup(x.read, ReadPart(rx, wanted), rest.bytes);
    } else if EndOfStream(rx) || rounds == [] {
      NoMoves(t, x);
      assert x.read + [] == x.read;
    } else {
      var y := AfterTurn(t, x, rounds[0], supply[0]);
      ReadIsSteps(t, y, wanted, rounds[1..], supply[1..]);
      PerformConcat(t, x, TurnMoves(t, x.end, rounds[0], supply[0]), ReadMoves(t, y, wanted, rounds[1..], supply[1..]));
    }
  }
}
