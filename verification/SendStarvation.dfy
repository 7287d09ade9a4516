/**
 * What a sealing job that throws can do to a send.
 *
 * `drain` waits until the pool is idle and does not look at failures while it
 * waits. A worker blocked on a full window waits for the writer, and the writer
 * waits for the chunk whose job threw. For that the producer must have submitted
 * everything before the failure is known, and a chunk a whole window further on
 * must be under way. So there are more chunks than slots, and a lone worker, which
 * takes up nothing else while its job throws, also needs a queue as deep as the
 * window. Where both hold, some run does hang.
 */
module SendStarvation {

  import opened Bytes
  import E = OrderedEmission
  import opened WorkerPool
  import opened SendPipeline

  ghost predicate Reaches(c: Plan, s: State) { exists acts: seq<Act> :: Play(c, acts) == Some(s) }

  ghost predicate CanDeadlock(c: Plan) { exists s: State :: Reaches(c, s) && Stuck(c, s) }

  lemma ReachesInv(c: Plan, s: State)
    requires Sized(c) && Reaches(c, s)
    ensures Inv(c, s)
  {
    var acts :| Play(c, acts) == Some(s);
    PlayKeepsInv(c, acts);
  }

  lemma ReachesOn(c: Plan, s: State, a: Act, t: State)
    requires Reaches(c, s) && After(c, s, a) == Some(t)
    ensures Reaches(c, t)
  {
    hide After;
    var acts :| Play(c, acts) == Some(s);
    assert (acts + [a])[..|acts|] == acts;
    assert Play(c, acts + [a]) == Some(t);
  }

  // -- A stuck send has more chunks than slots ------------------------------

  lemma StuckWorkers(c: Plan, s: State, w: nat)
    requires Inv(c, s) && Stuck(c, s) && w < |s.workers|
    ensures s.workers[w] == Idle || (s.workers[w].Publishing? && s.emitter.next + c.slots <= s.workers[w].index < |c.sealed|)
  {
    if s.workers[w] != Idle && (s.workers[w].Publishing? ==> E.MayPublish(s.emitter, s.workers[w].index)) {
      BusyWorkerSteps(c, s, w);
    }
  }

  lemma StuckNeedsChunks(c: Plan, s: State)
    requires Sized(c) && Inv(c, s) && Stuck(c, s)
    ensures |c.sealed| > c.slots
  {
    InvSteps(c, s);
    forall w | 0 <= w < |s.workers| && |c.sealed| <= c.slots ensures s.workers[w] == Idle {
      StuckWorkers(c, s, w);
    }
    if |c.sealed| <= c.slots {
      IdleWorkersStep(c, s);
    }
  }

  // -- Moves a run can make -------------------------------------------------

  /** Feeding, the writer waiting for its next chunk, nobody aborted. */
  ghost predicate Calm(s: State) {
    && s.producer == Feeding && !s.pool.stopping
    && s.writer == Consuming && !s.emitter.aborted && s.emitter.total == None
  }

  /** Nothing queued, and no failure known. */
  ghost predicate Quiet(s: State) { Calm(s) && s.pool.queue == [] && !s.pool.failed }

  lemma SubmitOne(c: Plan, s: State) returns (t: State)
    requires Reaches(c, s) && Inv(c, s) && Calm(s) && !s.pool.failed
    requires s.submitted < |c.sealed| && |s.pool.queue| < c.depth
    ensures Reaches(c, t)
    ensures t == s.(submitted := s.submitted + 1, pool := s.pool.(queue := s.pool.queue + [s.submitted]))
  {
    t := After(c, s, ProducerActs).value;
    ReachesOn(c, s, ProducerActs, t);
  }

  lemma BeginJob(c: Plan, s: State, w: nat) returns (t: State)
    requires Reaches(c, s) && |s.emitter.slots| > 0 && w < |s.workers| && s.workers[w] == Idle && s.pool.queue != []
    ensures Reaches(c, t)
    ensures t == s.(workers := s.workers[w := Sealing(s.pool.queue[0])],
                    pool := s.pool.(queue := s.pool.queue[1..], active := s.pool.active + 1))
  {
    t := After(c, s, WorkerActs(w)).value;
    ReachesOn(c, s, WorkerActs(w), t);
  }

  lemma SealJob(c: Plan, s: State, w: nat) returns (t: State)
    requires Reaches(c, s) && |s.emitter.slots| > 0 && w < |s.workers| && s.workers[w].Sealing?
    ensures Reaches(c, t) && t == s.(workers := s.workers[w := Publishing(s.workers[w].index)])
  {
    t := After(c, s, WorkerActs(w)).value;
    ReachesOn(c, s, WorkerActs(w), t);
  }

  lemma PublishJob(c: Plan, s: State, w: nat) returns (t: State)
    requires Reaches(c, s) && |s.emitter.slots| > 0 && w < |s.workers| && s.workers[w].Publishing?
    requires !s.emitter.aborted && E.MayPublish(s.emitter, s.workers[w].index) && s.workers[w].index < |c.sealed|
    ensures var index := s.workers[w].index;
            && Reaches(c, t)
            && t == s.(workers := s.workers[w := Ending(false)],
                       emitter := E.Publish(s.emitter, index, c.sealed[index]),
                       published := s.published[index := c.sealed[index]])
  {
    t := After(c, s, WorkerActs(w)).value;
    ReachesOn(c, s, WorkerActs(w), t);
  }

  lemma EndTheJob(c: Plan, s: State, w: nat) returns (t: State)
    requires Reaches(c, s) && |s.emitter.slots| > 0 && w < |s.workers| && s.workers[w].Ending? && s.pool.active > 0
    ensures Reaches(c, t) && t == s.(workers := s.workers[w := Idle], pool := EndJob(s.pool, s.workers[w].failed))
  {
    t := After(c, s, WorkerActs(w)).value;
    ReachesOn(c, s, WorkerActs(w), t);
  }

  /** Submit the next chunk and let worker `w` see it through to the emitter. */
  lemma RunJob(c: Plan, s: State, w: nat) returns (t: State)
    requires Sized(c) && Reaches(c, s) && Inv(c, s) && Quiet(s) && s.submitted < |c.sealed|
    requires w < |s.workers| && s.workers[w] == Idle && s.submitted < s.emitter.next + c.slots
    ensures Reaches(c, t)
    ensures t == s.(submitted := s.submitted + 1,
                    emitter := E.Publish(s.emitter, s.submitted, c.sealed[s.submitted]),
                    published := s.published[s.submitted := c.sealed[s.submitted]])
  {
    assert |s.emitter.slots| == c.slots;
    hide Inv, After, Play;
    var a := SubmitOne(c, s);
    t := FinishJob(c, a, w);
    assert [s.submitted][1..] == [];
  }

  /** Worker `w` takes the oldest job and sees it through to the emitter. */
  lemma FinishJob(c: Plan, s: State, w: nat) returns (t: State)
    requires Reaches(c, s) && |s.emitter.slots| > 0 && w < |s.workers| && s.workers[w] == Idle && s.pool.queue != []
    requires !s.emitter.aborted && s.pool.queue[0] < |c.sealed| && E.MayPublish(s.emitter, s.pool.queue[0])
    ensures var index := s.pool.queue[0];
            && Reaches(c, t)
            && t == s.(pool := s.pool.(queue := s.pool.queue[1..]),
                       emitter := E.Publish(s.emitter, index, c.sealed[index]),
                       published := s.published[index := c.sealed[index]])
  {
    hide After, Play;
    var b := BeginJob(c, s, w);
    var d := SealJob(c, b, w);
    var e := PublishJob(c, d, w);
    t := EndTheJob(c, e, w);
    assert t.workers == s.workers;
  }

  lemma WriteOne(c: Plan, s: State) returns (t: State)
    requires Sized(c) && Reaches(c, s) && Inv(c, s) && Quiet(s) && s.emitter.next in s.published
    ensures Reaches(c, t)
    ensures t.emitter == E.Consume(s.emitter)
    ensures t == s.(emitter := t.emitter, output := t.output, taken := t.taken)
  {
    E.ReadyIffPublished(s.emitter, s.published, s.taken, s.emitter.next);
    var a := After(c, s, WriterActs).value;
    ReachesOn(c, s, WriterActs, a);
    t := After(c, a, WriterActs).value;
    ReachesOn(c, a, WriterActs, t);
  }

  // -- The run that starves -------------------------------------------------

  ghost predicate IdleFrom(workers: seq<Worker>, first: nat) {
    forall w :: first <= w < |workers| ==> workers[w] == Idle
  }

  /** The first `m` chunks are on the channel and nothing is in flight. */
  ghost predicate Sent(c: Plan, s: State, m: nat) {
    Reaches(c, s) && Quiet(s) && s.submitted == m == s.emitter.next && IdleFrom(s.workers, 0)
  }

  lemma {:induction false} SendFirst(c: Plan, m: nat) returns (s: State)
    requires Sized(c) && m <= |c.sealed|
    ensures Sent(c, s, m)
  {
    if m == 0 {
      s := Start(c);
      assert Play(c, []) == Some(s);
    } else {
      var before := SendFirst(c, m - 1);
      ReachesInv(c, before);
      var published := RunJob(c, before, 0);
      ReachesInv(c, published);
      s := WriteOne(c, published);
    }
  }

  /** Worker 0 sits on chunk `m` while the `j` chunks after it have been published. */
  ghost predicate HeldUp(c: Plan, s: State, m: nat, j: nat) {
    && Reaches(c, s) && Quiet(s) && s.submitted == m + 1 + j && s.emitter.next == m
    && |s.workers| == c.workers > 0 && s.workers[0] == Sealing(m) && IdleFrom(s.workers, 1)
  }

  lemma HoldUp(c: Plan, s: State, m: nat) returns (t: State)
    requires Sized(c) && Sent(c, s, m) && m < |c.sealed|
    ensures HeldUp(c, t, m, 0)
  {
    ReachesInv(c, s);
    var a := SubmitOne(c, s);
    t := BeginJob(c, a, 0);
  }

  lemma {:induction false} RunAhead(c: Plan, m: nat, j: nat) returns (s: State)
    requires Sized(c) && c.workers >= 2 && m + 1 + j <= |c.sealed| && j < c.slots
    ensures HeldUp(c, s, m, j)
  {
    if j == 0 {
      var sent := SendFirst(c, m);
      s := HoldUp(c, sent, m);
    } else {
      var before := RunAhead(c, m, j - 1);
      ReachesInv(c, before);
      s := RunJob(c, before, 1);
    }
  }

  /** All submitted, the next chunk lost, and every worker idle or blocked by the full window. */
  ghost predicate Hung(c: Plan, s: State) {
    && Reaches(c, s) && Calm(s) && s.pool.queue == [] && s.pool.active > 0
    && s.submitted == |c.sealed| && s.emitter.next in s.lost
    && forall w :: 0 <= w < |s.workers| ==>
         s.workers[w] == Idle || (s.workers[w].Publishing? && s.workers[w].index >= s.emitter.next + c.slots)
  }

  lemma HungIsStuck(c: Plan, s: State)
    requires Inv(c, s) && Hung(c, s)
    ensures Stuck(c, s)
  {
    E.ReadyIffPublished(s.emitter, s.published, s.taken, s.emitter.next);
    forall a: Act ensures After(c, s, a).None? {
    }
  }

  /** Two workers: the second meets the full window, then the job of the first throws. */
  lemma HangWithTwo(c: Plan, s: State, m: nat) returns (t: State)
    requires Sized(c) && c.workers >= 2 && |c.sealed| == m + c.slots + 1 && HeldUp(c, s, m, c.slots - 1)
    ensures Hung(c, t)
  {
    ReachesInv(c, s);
    var a := SubmitOne(c, s);
    var b := BeginJob(c, a, 1);
    var d := SealJob(c, b, 1);
    var e := After(c, d, WorkerFails(0)).value;
    ReachesOn(c, d, WorkerFails(0), e);
    ReachesInv(c, e);
    NoneBusy(e.workers, 0);
    t := EndTheJob(c, e, 0);
    ReachesInv(c, t);
    NoneBusy(t.workers, 1);
  }

  // -- One worker -----------------------------------------------------------

  /** The worker sits on chunk `m` while the `j` chunks after it are queued. */
  ghost predicate Queueing(c: Plan, s: State, m: nat, j: nat) {
    && Reaches(c, s) && Calm(s) && !s.pool.failed && s.submitted == m + 1 + j && s.emitter.next == m
    && s.workers == [Sealing(m)] && |s.pool.queue| == j
  }

  lemma {:induction false} QueueUp(c: Plan, m: nat, j: nat) returns (s: State)
    requires Sized(c) && c.workers == 1 && m + 1 + j <= |c.sealed| && j <= c.depth
    ensures Queueing(c, s, m, j)
  {
    if j == 0 {
      var sent := SendFirst(c, m);
      s := HoldUp(c, sent, m);
      assert s.workers == [s.workers[0]];
    } else {
      var before := QueueUp(c, m, j - 1);
      ReachesInv(c, before);
      s := SubmitOne(c, before);
    }
  }

  /** Chunk `m` is lost, everything is submitted, and the last `left` chunks are still queued. */
  ghost predicate Doomed(c: Plan, s: State, m: nat, left: nat) {
    && Reaches(c, s) && Calm(s) && s.submitted == |c.sealed| == m + c.slots + 1 && s.emitter.next == m
    && m in s.lost && s.workers == [Idle] && |s.pool.queue| == left
  }

  lemma Throw(c: Plan, s: State, m: nat) returns (t: State)
    requires Sized(c) && |c.sealed| == m + c.slots + 1 && Queueing(c, s, m, c.slots)
    ensures Doomed(c, t, m, c.slots)
  {
    ReachesInv(c, s);
    var e := After(c, s, WorkerFails(0)).value;
    ReachesOn(c, s, WorkerFails(0), e);
    ReachesInv(c, e);
    NoneBusy(e.workers, 0);
    t := EndTheJob(c, e, 0);
  }

  lemma {:induction false} WorkOff(c: Plan, m: nat, left: nat) returns (s: State)
    requires Sized(c) && c.workers == 1 && c.slots <= c.depth && |c.sealed| == m + c.slots + 1 && 0 < left <= c.slots
    ensures Doomed(c, s, m, left)
    decreases c.slots - left
  {
    if left == c.slots {
      var queued := QueueUp(c, m, c.slots);
      s := Throw(c, queued, m);
    } else {
      var before := WorkOff(c, m, left + 1);
      ReachesInv(c, before);
      assert before.pool.queue[0] == m + c.slots - left;
      s := FinishJob(c, before, 0);
    }
  }

  lemma HangWithOne(c: Plan, s: State, m: nat) returns (t: State)
    requires Sized(c) && Doomed(c, s, m, 1)
    ensures Hung(c, t)
  {
    ReachesInv(c, s);
    assert s.pool.queue[0] == m + c.slots;
    var b := BeginJob(c, s, 0);
    t := SealJob(c, b, 0);
    ReachesInv(c, t);
    NoneBusy(t.workers, 0);
  }

  /** What a lone worker adds to the invariant: a failure bounds how far the producer ever gets. */
  ghost predicate Lone(c: Plan, s: State) {
    && |s.pool.queue| <= c.depth && |s.workers| == 1
    && (Held(s.workers[0]).Some? ==> Held(s.workers[0]).value == Begun(s) - 1)
    && (s.producer == Feeding && !s.pool.failed && s.lost != {} ==>
          s.workers[0] == Ending(true) && s.lost == {Begun(s) - 1})
    && forall index <- s.lost :: s.submitted <= index + 1 + c.depth
  }

  lemma ActKeepsLone(c: Plan, s: State, a: Act)
    requires Sized(c) && Inv(c, s) && Lone(c, s) && After(c, s, a).Some?
    ensures Lone(c, After(c, s, a).value)
  {
    hide E.Refines, Accounted, Busy, WriterOk;
  }

  lemma {:induction false} PlayKeepsLone(c: Plan, acts: seq<Act>)
    requires Sized(c) && c.workers == 1 && Play(c, acts).Some?
    ensures Lone(c, Play(c, acts).value)
  {
    if acts != [] {
      PlayKeepsLone(c, acts[..|acts| - 1]);
      PlayKeepsInv(c, acts[..|acts| - 1]);
      hide Inv, Lone, After;
      ActKeepsLone(c, Play(c, acts[..|acts| - 1]).value, acts[|acts| - 1]);
    }
  }

  lemma StuckLoneNeedsDepth(c: Plan, s: State)
    requires Sized(c) && c.workers == 1 && Reaches(c, s) && Stuck(c, s)
    ensures c.slots <= c.depth
  {
    var acts :| Play(c, acts) == Some(s);
    PlayKeepsLone(c, acts);
    PlayKeepsInv(c, acts);
    hide Play, After;
    InvSteps(c, s);
    StuckWorkers(c, s, 0);
    if s.workers[0] == Idle {
      IdleWorkersStep(c, s);
    }
  }

  // -- The exact condition --------------------------------------------------

  /** A send can hang after a failed job exactly when it has more chunks than slots and
      either a second worker or a queue at least as deep as the window. */
  lemma DeadlockIff(c: Plan)
    requires Sized(c)
    ensures CanDeadlock(c) <==> |c.sealed| > c.slots && (c.workers >= 2 || c.slots <= c.depth)
  {
    if CanDeadlock(c) {
      var s :| Reaches(c, s) && Stuck(c, s);
      ReachesInv(c, s);
      StuckNeedsChunks(c, s);
      if c.workers == 1 {
        StuckLoneNeedsDepth(c, s);
      }
    }
    if |c.sealed| > c.slots && (c.workers >= 2 || c.slots <= c.depth) {
      HangReachable(c);
    }
  }

  lemma HangReachable(c: Plan)
    requires Sized(c) && |c.sealed| > c.slots && (c.workers >= 2 || c.slots <= c.depth)
    ensures CanDeadlock(c)
  {
    hide Play, After, Inv, Stuck;
    var m, s := |c.sealed| - c.slots - 1, Start(c);
    if c.workers >= 2 {
      var ahead := RunAhead(c, m, c.slots - 1);
      s := HangWithTwo(c, ahead, m);
    } else {
      var doomed := WorkOff(c, m, 1);
      s := HangWithOne(c, doomed, m);
    }
    ReachesInv(c, s);
    HungIsStuck(c, s);
  }

  /** For the sizes the sender picks: a lone worker never hangs, more workers can from 3w + 5 chunks on. */
  lemma SenderDeadlockIff(sealed: seq<Chunk>, workers: nat)
    requires workers > 0
    ensures CanDeadlock(PlanFor(sealed, workers)) <==> workers >= 2 && |sealed| > 3 * workers + 4
  {
    DeadlockIff(PlanFor(sealed, workers));
  }
}
