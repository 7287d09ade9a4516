/**
 * Back-pressure on one direction of a relay, at the grain the shards race at.
 *
 * The source shard forwards a frame in four separate actions: look at the pause
 * flag, append the frame to the destination's queue, compare the queue with the
 * pause threshold, raise the flag. The destination shard drains in three: flush
 * and compare with the resume threshold, look at the flag, lower it. Neither
 * holds a lock across two actions, so a destination may lower the flag on the
 * strength of a comparison that has long stopped being true.
 */
module RelayBackpressure {

  import opened Bytes
  import opened Frames

  /** Thresholds, and the largest frame a queue accepts, header included. */
  datatype Limits = Limits(pause: nat, resume: nat, frame: nat)

  const SERVER_LIMITS := Limits(4 * 1024 * 1024, 1024 * 1024, MAX_FRAME_LENGTH + FRAME_HEADER_SIZE)

  datatype SourceAt = LooksAtFlag | Appends | Compares | Raises
  datatype DestinationAt = Flushes | SawRoom | Lowers

  /** Bytes queued at the destination, those of relayed frames apart from the rest. */
  datatype Direction = Direction(relayed: nat, other: nat, paused: bool, source: SourceAt, destination: DestinationAt) {
    function Pending(): nat { relayed + other }
  }

  const START := Direction(0, 0, false, LooksAtFlag, Flushes)

  datatype Act =
    | SourceLooks
    | SourceAppends(size: nat)
    | SourceCompares
    | SourceRaises
    | OtherAppends(size: nat)
    | DestinationFlushes(relayedLeft: nat, otherLeft: nat)
    | DestinationCompares
    | DestinationLooks
    | DestinationLowers

  /** The state after an action, None where the action is not the actor's next one. */
  function After(l: Limits, s: Direction, a: Act): Option<Direction> {
    match a
    case SourceLooks =>
      if s.source == LooksAtFlag && !s.paused then Some(s.(source := Appends)) else None
    case SourceAppends(size) =>
      if s.source == Appends && FRAME_HEADER_SIZE <= size <= l.frame then
        Some(s.(relayed := s.relayed + size, source := Compares))
      else None
    case SourceCompares =>
      if s.source != Compares then None
      else Some(s.(source := if s.Pending() > l.pause then Raises else LooksAtFlag))
    case SourceRaises =>
      if s.source == Raises then Some(s.(paused := true, source := LooksAtFlag)) else None
    case OtherAppends(size) =>
      Some(s.(other := s.other + size))
    case DestinationFlushes(relayedLeft, otherLeft) =>
      if s.destination == Flushes && relayedLeft <= s.relayed && otherLeft <= s.other then
        Some(s.(relayed := relayedLeft, other := otherLeft))
      else None
    case DestinationCompares =>
      if s.destination == Flushes && s.Pending() <= l.resume then Some(s.(destination := SawRoom)) else None
    case DestinationLooks =>
      if s.destination == SawRoom then Some(s.(destination := if s.paused then Lowers else Flushes)) else None
    case DestinationLowers =>
      if s.destination == Lowers then Some(s.(paused := false, destination := Flushes)) else None
  }

  /** Where a sequence of actions leads from the start, None if one of them is out of turn. */
  function Play(l: Limits, acts: seq<Act>): Option<Direction> {
    if acts == [] then Some(START)
    else
      var before := Play(l, acts[..|acts| - 1]);
      if before.None? then None else After(l, before.value, acts[|acts| - 1])
  }

  /** The destination has compared but not yet acted on what it saw. */
  predicate Stale(s: Direction) { s.destination != Flushes }

  /** Nothing stops the source from appending one more frame. */
  predicate MayAppend(s: Direction) {
    s.source == Appends || (s.source == LooksAtFlag && !s.paused)
  }

  ghost predicate Inv(l: Limits, s: Direction) {
    && (s.source != LooksAtFlag ==> !s.paused)
    && (s.destination == Lowers ==> s.paused)
    && s.relayed <= l.pause + (if Stale(s) then 0 else l.frame) + (if MayAppend(s) then 0 else l.frame)
  }

  lemma ActKeepsInv(l: Limits, s: Direction, a: Act)
    requires l.resume <= l.pause && Inv(l, s) && After(l, s, a).Some?
    ensures Inv(l, After(l, s, a).value)
  {
  }

  lemma {:induction false} PlayKeepsInv(l: Limits, acts: seq<Act>)
    requires l.resume <= l.pause && Play(l, acts).Some?
    ensures Inv(l, Play(l, acts).value)
  {
    if acts != [] {
      PlayKeepsInv(l, acts[..|acts| - 1]);
      ActKeepsInv(l, Play(l, acts[..|acts| - 1]).value, acts[|acts| - 1]);
    }
  }

  /** In every interleaving the relayed bytes queued exceed the threshold by at most two frames. */
  lemma QueueBounded(l: Limits, acts: seq<Act>)
    requires l.resume <= l.pause && Play(l, acts).Some?
    ensures Play(l, acts).value.relayed <= l.pause + 2 * l.frame
  {
    PlayKeepsInv(l, acts);
  }

  /** The destination acts at once on what it saw: no source action in between. */
  predicate Undisturbed(l: Limits, acts: seq<Act>) {
    acts != [] ==>
      && Undisturbed(l, acts[..|acts| - 1])
      && var before := Play(l, acts[..|acts| - 1]);
         (before.Some? && Stale(before.value) ==> acts[|acts| - 1].DestinationLooks? || acts[|acts| - 1].DestinationLowers?)
  }

  /** The second frame is the price of one stale resume: without one, a single frame is enough. */
  lemma {:induction false} FreshResumesBound(l: Limits, acts: seq<Act>)
    requires l.resume <= l.pause && Play(l, acts).Some? && Undisturbed(l, acts)
    ensures var s := Play(l, acts).value;
            && s.relayed <= l.pause + l.frame
            && (MayAppend(s) || Stale(s) ==> s.relayed <= l.pause)
  {
    if acts != [] {
      PlayKeepsInv(l, acts);
      FreshResumesBound(l, acts[..|acts| - 1]);
    }
  }

  function Forward(size: nat): seq<Act> { [SourceLooks, SourceAppends(size), SourceCompares] }

  lemma {:induction false} PlayAppend(l: Limits, acts: seq<Act>, a: Act)
    ensures Play(l, acts + [a]) == if Play(l, acts).None? then None else After(l, Play(l, acts).value, a)
  {
    assert (acts + [a])[..|acts|] == acts;
  }

  lemma ForwardLeads(l: Limits, acts: seq<Act>, size: nat)
    requires Play(l, acts).Some? && FRAME_HEADER_SIZE <= size <= l.frame
    requires var s := Play(l, acts).value; s.source == LooksAtFlag && !s.paused
    ensures var s := Play(l, acts).value;
            Play(l, acts + Forward(size)) ==
            Some(s.(relayed := s.relayed + size, source := if s.Pending() + size > l.pause then Raises else LooksAtFlag))
  {
    hide Play;
    PlayAppend(l, acts, SourceLooks);
    PlayAppend(l, acts + [SourceLooks], SourceAppends(size));
    PlayAppend(l, acts + [SourceLooks] + [SourceAppends(size)], SourceCompares);
    assert acts + Forward(size) == acts + [SourceLooks] + [SourceAppends(size)] + [SourceCompares];
  }

  /** Whole frames can add up to `target`. */
  predicate Fillable(target: nat, frame: nat)
    requires frame > 0
    decreases target
  {
    if target <= frame then FRAME_HEADER_SIZE <= target else Fillable(target - frame, frame)
  }

  /** Frames that fill the queue to exactly `target`. */
  function Filling(target: nat, frame: nat): seq<Act>
    requires frame > 0
    decreases target
  {
    if target <= frame then Forward(target) else Filling(target - frame, frame) + Forward(frame)
  }

  /** The destination looks at an empty queue, then the source fills it up to the threshold. */
  lemma {:induction false} FillingLeads(l: Limits, target: nat)
    requires FRAME_HEADER_SIZE <= l.frame && target <= l.pause && Fillable(target, l.frame)
    ensures Play(l, [DestinationCompares] + Filling(target, l.frame)) == Some(START.(relayed := target, destination := SawRoom))
    decreases target
  {
    hide Play, After, Forward;
    var first := [DestinationCompares];
    if target <= l.frame {
      FirstLook(l);
      ForwardLeads(l, first, target);
    } else {
      FillingLeads(l, target - l.frame);
      var before := Filling(target - l.frame, l.frame);
      ForwardLeads(l, first + before, l.frame);
      Regroup(first, before, Forward(l.frame));
    }
  }

  lemma FirstLook(l: Limits)
    ensures Play(l, [DestinationCompares]) == Some(START.(destination := SawRoom))
  {
    assert [DestinationCompares][..0] == [];
  }

  /** The run that pays for a stale resume. */
  function WorstRun(l: Limits): seq<Act>
    requires l.frame > 0
  {
    [DestinationCompares] + Filling(l.pause, l.frame) + Forward(l.frame)
      + [SourceRaises] + [DestinationLooks] + [DestinationLowers] + Forward(l.frame)
  }

  /** The bound is exact wherever frames can fill the queue to the threshold. */
  lemma BoundAttained(l: Limits)
    requires FRAME_HEADER_SIZE <= l.frame && Fillable(l.pause, l.frame)
    ensures Play(l, WorstRun(l)).Some?
    ensures Play(l, WorstRun(l)).value.relayed == l.pause + 2 * l.frame
  {
    hide Play;
    var full := [DestinationCompares] + Filling(l.pause, l.frame);
    FillingLeads(l, l.pause);
    ForwardLeads(l, full, l.frame);
    var over := full + Forward(l.frame);
    PlayAppend(l, over, SourceRaises);
    PlayAppend(l, over + [SourceRaises], DestinationLooks);
    PlayAppend(l, over + [SourceRaises] + [DestinationLooks], DestinationLowers);
    ForwardLeads(l, over + [SourceRaises] + [DestinationLooks] + [DestinationLowers], l.frame);
  }

  /** What the server's constants give: 8 MiB and two headers, reached but never exceeded. */
  lemma ServerQueueBounded(acts: seq<Act>)
    requires Play(SERVER_LIMITS, acts).Some?
    ensures Play(SERVER_LIMITS, acts).value.relayed <= 8 * 1024 * 1024 + 16
    ensures Play(SERVER_LIMITS, WorstRun(SERVER_LIMITS)).Some?
    ensures Play(SERVER_LIMITS, WorstRun(SERVER_LIMITS)).value.relayed == 8 * 1024 * 1024 + 16
  {
    QueueBounded(SERVER_LIMITS, acts);
    BoundAttained(SERVER_LIMITS);
  }
}
