/**
 * Sending an encrypted transfer: a producer feeds sealing jobs to a bounded pool,
 * workers publish the sealed chunks, one writer puts them on the channel in order.
 *
 * Every action is one critical section of the program. Any action may come next
 * whose wait is over, so a run is an interleaving of all threads.
 */
module SendPipeline {

  import opened Bytes
  import E = OrderedEmission
  import opened WorkerPool

  type Chunk = E.Chunk

  /** The sealed chunks, in order, and the sizes the pipeline was built with. */
  datatype Plan = Plan(sealed: seq<Chunk>, depth: nat, workers: nat, slots: nat)

  predicate Sized(c: Plan) { c.depth > 0 && c.workers > 0 && c.slots > 0 }

  /** The sizes the sender picks for a number of workers. */
  function PlanFor(sealed: seq<Chunk>, workers: nat): Plan { Plan(sealed, workers * 2, workers, workers * 2 + workers + 4) }

  datatype Producer = Feeding | Declaring | Aborting | Joining(sent: bool) | Done(sent: bool)

  datatype Worker = Idle | Sealing(index: nat) | Publishing(index: nat) | Ending(failed: bool)

  datatype Writer = Consuming | Writing(chunk: Chunk) | Flushing | Failing | Stopped(clean: bool)

  /** Threads, the objects they share, and the history of what has happened. */
  datatype State = State(
    producer: Producer, submitted: nat,
    pool: Pool, workers: seq<Worker>,
    emitter: E.Emitter, writer: Writer,
    output: seq<Chunk>,
    published: map<nat, Chunk>, taken: seq<Chunk>, lost: set<nat>)

  function Start(c: Plan): State {
    State(Feeding, 0, NewPool(c.depth), seq(c.workers, _ => Idle), E.Empty(c.slots), Consuming, [], map[], [], {})
  }

  datatype Act = ProducerActs | WorkerActs(w: nat) | WorkerFails(w: nat) | WriterActs | WriterFails

  // -- One action of each thread --------------------------------------------

  function ProducerAfter(c: Plan, s: State): Option<State> {
    match s.producer
    case Feeding =>
      if s.submitted < |c.sealed| then
        if !MaySubmit(s.pool) then None
        else if s.pool.failed then Some(s.(producer := Aborting))
        else Some(s.(pool := Submit(s.pool, s.submitted), submitted := s.submitted + 1))
      else if !MayDrain(s.pool) then None
      else Some(s.(pool := Drain(s.pool), producer := if s.pool.failed then Aborting else Declaring))
    case Declaring => Some(s.(emitter := s.emitter.(total := Some(|c.sealed|)), producer := Joining(true)))
    case Aborting => Some(s.(emitter := s.emitter.(aborted := true), producer := Joining(false)))
    case Joining(sent) => if s.writer.Stopped? then Some(s.(producer := Done(sent && s.writer.clean))) else None
    case Done(_) => None
  }

  /** A job runs to its end: seal, publish when there is room, report back to the pool. */
  function WorkerAfter(c: Plan, s: State, w: nat): Option<State>
    requires |s.emitter.slots| > 0
  {
    if w >= |s.workers| then None
    else
      match s.workers[w]
      case Idle =>
        if MayTake(s.pool) then
          Some(s.(workers := s.workers[w := Sealing(s.pool.queue[0])], pool := Take(s.pool)))
        else None
      case Sealing(index) => Some(s.(workers := s.workers[w := Publishing(index)]))
      case Publishing(index) =>
        if !E.MayPublish(s.emitter, index) || index >= |c.sealed| then None
        else if s.emitter.aborted then Some(s.(workers := s.workers[w := Ending(false)]))
        else
          Some(s.(workers := s.workers[w := Ending(false)],
                  emitter := E.Publish(s.emitter, index, c.sealed[index]),
                  published := s.published[index := c.sealed[index]]))
      case Ending(failed) =>
        if s.pool.active == 0 then None
        else Some(s.(workers := s.workers[w := Idle], pool := EndJob(s.pool, failed)))
  }

  /** A sealing job throws. */
  function WorkerFailed(s: State, w: nat): Option<State> {
    if w < |s.workers| && s.workers[w].Sealing? then
      Some(s.(workers := s.workers[w := Ending(true)], lost := s.lost + {s.workers[w].index}))
    else None
  }

  function WriterAfter(s: State): Option<State>
    requires |s.emitter.slots| > 0
  {
    match s.writer
    case Consuming =>
      if !E.MayConsume(s.emitter) then None
      else
        var after := s.(emitter := E.Consume(s.emitter));
        Some(match E.Yield(s.emitter)
             case Taken(chunk) => after.(writer := Writing(chunk), taken := s.taken + [chunk])
             case NoMore => after.(writer := Flushing)
             case Failed => after.(writer := Failing))
    case Writing(chunk) => Some(s.(writer := Consuming, output := s.output + [chunk]))
    case Flushing => Some(s.(writer := Stopped(true)))
    case Failing => Some(s.(writer := Stopped(false), emitter := s.emitter.(aborted := true)))
    case Stopped(_) => None
  }

  /** The channel fails under a write or the final flush. */
  function WriterFailed(s: State): Option<State> {
    if s.writer.Writing? || s.writer.Flushing? then Some(s.(writer := Failing)) else None
  }

  function After(c: Plan, s: State, a: Act): Option<State> {
    if |s.emitter.slots| == 0 then None
    else
      match a
      case ProducerActs => ProducerAfter(c, s)
      case WorkerActs(w) => WorkerAfter(c, s, w)
      case WorkerFails(w) => WorkerFailed(s, w)
      case WriterActs => WriterAfter(s)
      case WriterFails => WriterFailed(s)
  }

  function Play(c: Plan, acts: seq<Act>): Option<State> {
    if acts == [] then Some(Start(c))
    else
      var before := Play(c, acts[..|acts| - 1]);
      if before.None? then None else After(c, before.value, acts[|acts| - 1])
  }

  // -- What every run keeps -------------------------------------------------

  /** Jobs taken from the queue so far. */
  function Begun(s: State): int { s.submitted - |s.pool.queue| }

  /** The queue is the run of indices just submitted. */
  ghost predicate Queued(c: Plan, submitted: nat, queue: seq<Job>) {
    && |queue| <= submitted <= |c.sealed|
    && forall i :: 0 <= i < |queue| ==> queue[i] == submitted - |queue| + i
  }

  function Held(w: Worker): Option<nat> {
    match w case Sealing(index) => Some(index) case Publishing(index) => Some(index) case _ => None
  }

  ghost predicate HeldBySome(workers: seq<Worker>, index: nat) {
    exists w :: 0 <= w < |workers| && Held(workers[w]) == Some(index)
  }

  /** Workers hold different jobs, none of them finished. */
  ghost predicate Exclusive(workers: seq<Worker>, begun: int, published: map<nat, Chunk>, lost: set<nat>) {
    && (forall w :: 0 <= w < |workers| ==>
          (var h := Held(workers[w]); h.Some? ==> h.value < begun && h.value !in published && h.value !in lost))
    && (forall v, w :: 0 <= v < w < |workers| && Held(workers[v]).Some? ==> Held(workers[v]) != Held(workers[w]))
  }

  /** Every job begun is published, lost or still held. */
  ghost predicate Accounted(workers: seq<Worker>, begun: int, published: map<nat, Chunk>, lost: set<nat>) {
    forall index :: 0 <= index < begun ==> index in published || index in lost || HeldBySome(workers, index)
  }

  ghost predicate Faithful(c: Plan, begun: int, published: map<nat, Chunk>, lost: set<nat>) {
    && begun <= |c.sealed|
    && (forall index <- published :: index < begun && published[index] == c.sealed[index])
    && (forall index <- lost :: index < begun && index !in published)
  }

  function Busy(workers: seq<Worker>): nat {
    if workers == [] then 0 else Busy(workers[..|workers| - 1]) + if workers[|workers| - 1] == Idle then 0 else 1
  }

  /** A lost job is known to the pool, or will be when its worker reports back. */
  ghost predicate Noted(s: State) {
    s.lost != {} && s.producer == Feeding ==>
      s.pool.failed || exists w :: 0 <= w < |s.workers| && s.workers[w] == Ending(true)
  }

  ghost predicate Pooled(c: Plan, pool: Pool, workers: seq<Worker>) {
    && pool.depth == c.depth && !pool.stopping
    && |workers| == c.workers
    && pool.active == Busy(workers)
  }

  /** Past the drain of a transfer without failures, all work is done. */
  ghost predicate Drained(c: Plan, s: State) {
    && s.submitted == |c.sealed| && s.pool.queue == [] && s.lost == {}
    && forall w :: 0 <= w < |s.workers| ==> s.workers[w] == Idle
  }

  ghost predicate ProducerOk(c: Plan, s: State) {
    match s.producer
    case Feeding => s.emitter.total == None
    case Declaring => Drained(c, s) && s.emitter.total == None
    case Aborting => s.emitter.total == None
    case Joining(sent) => if sent then Drained(c, s) && s.emitter.total == Some(|c.sealed|)
      else s.emitter.aborted && s.emitter.total == None
    case Done(sent) =>
      && s.writer.Stopped?
      && (sent ==> s.writer.clean && Drained(c, s) && s.emitter.total == Some(|c.sealed|))
  }

  /** What is on the channel is what the writer has taken, in order. */
  ghost predicate WriterOk(s: State) {
    match s.writer
    case Consuming => s.output == s.taken
    case Writing(chunk) => s.output + [chunk] == s.taken
    case Flushing => s.output == s.taken && E.AllTaken(s.emitter)
    case Failing => s.output <= s.taken
    case Stopped(clean) => s.output <= s.taken && if clean then s.output == s.taken && E.AllTaken(s.emitter) else s.emitter.aborted
  }

  ghost predicate Inv(c: Plan, s: State) {
    && E.Refines(s.emitter, s.published, s.taken) && |s.emitter.slots| == c.slots
    && Queued(c, s.submitted, s.pool.queue)
    && Pooled(c, s.pool, s.workers)
    && Exclusive(s.workers, Begun(s), s.published, s.lost)
    && Faithful(c, Begun(s), s.published, s.lost)
    && (!s.emitter.aborted ==> Accounted(s.workers, Begun(s), s.published, s.lost))
    && Noted(s)
    && ProducerOk(c, s)
    && WriterOk(s)
  }

  // -- Workers --------------------------------------------------------------

  lemma {:induction false} BusyUpdate(workers: seq<Worker>, w: nat, to: Worker)
    requires w < |workers|
    ensures Busy(workers[w := to]) == Busy(workers) - (if workers[w] == Idle then 0 else 1) + if to == Idle then 0 else 1
  {
    var last := |workers| - 1;
    if w == last {
      assert workers[w := to][..last] == workers[..last];
    } else {
      assert workers[w := to][..last] == workers[..last][w := to];
      BusyUpdate(workers[..last], w, to);
    }
  }

  lemma {:induction false} NoneBusy(workers: seq<Worker>, w: nat)
    requires w < |workers|
    ensures Busy(workers) == 0 ==> workers[w] == Idle
    ensures workers[w] != Idle ==> Busy(workers) > 0
  {
    if w < |workers| - 1 {
      NoneBusy(workers[..|workers| - 1], w);
    }
  }

  lemma {:induction false} NoneBusyAtStart(n: nat)
    ensures Busy(seq(n, _ => Idle)) == 0
  {
    if n > 0 {
      assert seq(n, _ => Idle)[..n - 1] == seq(n - 1, _ => Idle);
      NoneBusyAtStart(n - 1);
    }
  }

  lemma StartInv(c: Plan)
    requires Sized(c)
    ensures Inv(c, Start(c))
  {
    NoneBusyAtStart(c.workers);
    E.EmptyRefines(c.slots);
  }

  /** A worker that holds nothing new leaves the others' jobs accounted for. */
  lemma HandedOn(workers: seq<Worker>, w: nat, to: Worker, index: nat)
    requires w < |workers| && HeldBySome(workers, index)
    ensures HeldBySome(workers[w := to], index) || Held(workers[w]) == Some(index)
  {
    var v :| 0 <= v < |workers| && Held(workers[v]) == Some(index);
    if v != w {
      assert Held(workers[w := to][v]) == Some(index);
    }
  }

  lemma ProducerKeepsInv(c: Plan, s: State)
    requires Sized(c) && Inv(c, s) && ProducerAfter(c, s).Some?
    ensures Inv(c, ProducerAfter(c, s).value)
  {
    hide Exclusive, Accounted, Busy;
    if s.producer == Feeding && s.submitted == |c.sealed| {
      forall w | 0 <= w < |s.workers| ensures s.workers[w] == Idle {
        NoneBusy(s.workers, w);
      }
    }
  }

  lemma TakeKeepsInv(c: Plan, s: State, w: nat)
    requires Inv(c, s) && w < |s.workers| && s.workers[w] == Idle && WorkerAfter(c, s, w).Some?
    ensures Inv(c, WorkerAfter(c, s, w).value)
  {
    var after, to := WorkerAfter(c, s, w).value, Sealing(s.pool.queue[0]);
    BusyUpdate(s.workers, w, to);
    assert to.index == Begun(s);
    forall index | 0 <= index < Begun(after)
      ensures index in s.published || index in s.lost || s.emitter.aborted || HeldBySome(after.workers, index)
    {
      if index == Begun(s) {
        assert Held(after.workers[w]) == Some(index);
      } else if HeldBySome(s.workers, index) {
        HandedOn(s.workers, w, to, index);
      }
    }
    if exists v :: 0 <= v < |s.workers| && s.workers[v] == Ending(true) {
      var v :| 0 <= v < |s.workers| && s.workers[v] == Ending(true);
      assert after.workers[v] == Ending(true);
    }
  }

  lemma SealKeepsInv(c: Plan, s: State, w: nat)
    requires Inv(c, s) && w < |s.workers| && s.workers[w].Sealing?
    ensures Inv(c, WorkerAfter(c, s, w).value)
  {
    var after, to := WorkerAfter(c, s, w).value, Publishing(s.workers[w].index);
    BusyUpdate(s.workers, w, to);
    forall index | HeldBySome(s.workers, index) ensures HeldBySome(after.workers, index) {
      HandedOn(s.workers, w, to, index);
      assert Held(after.workers[w]) == Held(s.workers[w]);
    }
    if exists v :: 0 <= v < |s.workers| && s.workers[v] == Ending(true) {
      var v :| 0 <= v < |s.workers| && s.workers[v] == Ending(true);
      assert after.workers[v] == Ending(true);
    }
  }

  lemma PublishKeepsInv(c: Plan, s: State, w: nat)
    requires Inv(c, s) && w < |s.workers| && s.workers[w].Publishing? && WorkerAfter(c, s, w).Some?
    ensures Inv(c, WorkerAfter(c, s, w).value)
  {
    var index, after := s.workers[w].index, WorkerAfter(c, s, w).value;
    BusyUpdate(s.workers, w, Ending(false));
    if !s.emitter.aborted {
      E.PublishRefines(s.emitter, s.published, s.taken, index, c.sealed[index]);
      forall i | HeldBySome(s.workers, i) ensures HeldBySome(after.workers, i) || i == index {
        HandedOn(s.workers, w, Ending(false), i);
      }
    }
    if exists v :: 0 <= v < |s.workers| && s.workers[v] == Ending(true) {
      var v :| 0 <= v < |s.workers| && s.workers[v] == Ending(true);
      assert after.workers[v] == Ending(true);
    }
  }

  lemma EndKeepsInv(c: Plan, s: State, w: nat)
    requires Inv(c, s) && w < |s.workers| && s.workers[w].Ending? && WorkerAfter(c, s, w).Some?
    ensures Inv(c, WorkerAfter(c, s, w).value)
  {
    var after := WorkerAfter(c, s, w).value;
    BusyUpdate(s.workers, w, Idle);
    forall i | HeldBySome(s.workers, i) ensures HeldBySome(after.workers, i) {
      HandedOn(s.workers, w, Idle, i);
    }
    if exists v :: 0 <= v < |s.workers| && s.workers[v] == Ending(true) {
      var v :| 0 <= v < |s.workers| && s.workers[v] == Ending(true);
      assert v != w ==> after.workers[v] == Ending(true);
    }
  }

  lemma FailKeepsInv(c: Plan, s: State, w: nat)
    requires Inv(c, s) && WorkerFailed(s, w).Some?
    ensures Inv(c, WorkerFailed(s, w).value)
  {
    var after := WorkerFailed(s, w).value;
    BusyUpdate(s.workers, w, Ending(true));
    forall i | HeldBySome(s.workers, i) ensures HeldBySome(after.workers, i) || i == s.workers[w].index {
      HandedOn(s.workers, w, Ending(true), i);
    }
    assert after.workers[w] == Ending(true);
  }

  lemma WriterKeepsInv(c: Plan, s: State)
    requires Inv(c, s) && WriterAfter(s).Some?
    ensures Inv(c, WriterAfter(s).value)
  {
    hide Exclusive, Accounted, Pooled, Busy, Queued, Faithful;
    if s.writer == Consuming && E.Yield(s.emitter).Taken? {
      E.ConsumeRefines(s.emitter, s.published, s.taken);
    }
  }

  lemma ActKeepsInv(c: Plan, s: State, a: Act)
    requires Sized(c) && Inv(c, s) && After(c, s, a).Some?
    ensures Inv(c, After(c, s, a).value)
  {
    match a
    case ProducerActs => ProducerKeepsInv(c, s);
    case WorkerActs(w) =>
      match s.workers[w] {
        case Idle => TakeKeepsInv(c, s, w);
        case Sealing(_) => SealKeepsInv(c, s, w);
        case Publishing(_) => PublishKeepsInv(c, s, w);
        case Ending(_) => EndKeepsInv(c, s, w);
      }
    case WorkerFails(w) => FailKeepsInv(c, s, w);
    case WriterActs => WriterKeepsInv(c, s);
    case WriterFails =>
  }

  lemma {:induction false} PlayKeepsInv(c: Plan, acts: seq<Act>)
    requires Sized(c) && Play(c, acts).Some?
    ensures Inv(c, Play(c, acts).value)
  {
    if acts == [] {
      StartInv(c);
    } else {
      PlayKeepsInv(c, acts[..|acts| - 1]);
      ActKeepsInv(c, Play(c, acts[..|acts| - 1]).value, acts[|acts| - 1]);
    }
  }

  // -- The channel carries the chunks in order ------------------------------

  lemma TakenAsSealed(c: Plan, s: State)
    requires Inv(c, s)
    ensures s.taken <= c.sealed
  {
    if s.taken != [] {
      assert |s.taken| - 1 in s.published;
    }
    assert forall i :: 0 <= i < |s.taken| ==> s.taken[i] == c.sealed[i];
  }

  /** In every state of every run the channel carries a prefix of the sealed chunks. */
  lemma OutputInOrder(c: Plan, acts: seq<Act>)
    requires Sized(c) && Play(c, acts).Some?
    ensures Play(c, acts).value.output <= c.sealed
  {
    PlayKeepsInv(c, acts);
    TakenAsSealed(c, Play(c, acts).value);
  }

  /** A send that returns without an error has put every chunk on the channel, once and in order. */
  lemma DoneMeansSent(c: Plan, acts: seq<Act>)
    requires Sized(c) && Play(c, acts).Some? && Play(c, acts).value.producer == Done(true)
    ensures Play(c, acts).value.output == c.sealed
  {
    PlayKeepsInv(c, acts);
    TakenAsSealed(c, Play(c, acts).value);
  }

  // -- Some thread can always step ------------------------------------------

  ghost predicate Enabled(c: Plan, s: State) { exists a: Act :: After(c, s, a).Some? }

  /** Nobody can step, and the send has not returned. */
  ghost predicate Stuck(c: Plan, s: State) { !s.producer.Done? && !Enabled(c, s) }

  /** A lost chunk holds up the writer while the producer waits in `drain`. */
  ghost predicate Starved(c: Plan, s: State) {
    s.producer == Feeding && s.submitted == |c.sealed| && !s.emitter.aborted && s.emitter.next in s.lost
  }

  lemma BusyWorkerSteps(c: Plan, s: State, w: nat)
    requires Inv(c, s) && w < |s.workers| && s.workers[w] != Idle
    requires s.workers[w].Publishing? ==> E.MayPublish(s.emitter, s.workers[w].index)
    ensures After(c, s, WorkerActs(w)).Some?
  {
    NoneBusy(s.workers, w);
  }

  lemma WriterSteps(c: Plan, s: State)
    requires Inv(c, s) && !s.writer.Stopped? && E.MayConsume(s.emitter)
    ensures After(c, s, WriterActs).Some?
  {
  }

  lemma {:induction false} AllIdle(workers: seq<Worker>)
    requires forall w :: 0 <= w < |workers| ==> workers[w] == Idle
    ensures Busy(workers) == 0
  {
    if workers != [] {
      AllIdle(workers[..|workers| - 1]);
    }
  }

  /** With every worker idle, the queue, the producer or the writer moves. */
  lemma IdleWorkersStep(c: Plan, s: State)
    requires Sized(c) && Inv(c, s) && !s.producer.Done?
    requires forall w :: 0 <= w < |s.workers| ==> s.workers[w] == Idle
    requires s.producer.Joining? ==> E.MayConsume(s.emitter)
    ensures Enabled(c, s)
  {
    AllIdle(s.workers);
    if MayTake(s.pool) {
      assert After(c, s, WorkerActs(0)).Some?;
    } else if s.producer.Joining? && !s.writer.Stopped? {
      WriterSteps(c, s);
    } else {
      assert After(c, s, ProducerActs).Some?;
    }
  }

  lemma AbortedSteps(c: Plan, s: State)
    requires Sized(c) && Inv(c, s) && !s.producer.Done? && s.emitter.aborted
    ensures Enabled(c, s)
  {
    if w :| 0 <= w < |s.workers| && s.workers[w] != Idle {
      BusyWorkerSteps(c, s, w);
    } else {
      IdleWorkersStep(c, s);
    }
  }

  /** The chunk the writer waits for is on its way. */
  lemma NextBegunSteps(c: Plan, s: State)
    requires Sized(c) && Inv(c, s) && !s.producer.Done? && !s.emitter.aborted && s.emitter.next < Begun(s)
    ensures Enabled(c, s) || Starved(c, s)
  {
    var next := s.emitter.next;
    if next in s.published {
      E.ReadyIffPublished(s.emitter, s.published, s.taken, next);
      WriterSteps(c, s);
    } else if next in s.lost {
      if w :| 0 <= w < |s.workers| && s.workers[w] == Ending(true) {
        BusyWorkerSteps(c, s, w);
      } else if !Starved(c, s) {
        assert After(c, s, ProducerActs).Some?;
      }
    } else {
      assert HeldBySome(s.workers, next);
      var w :| 0 <= w < |s.workers| && Held(s.workers[w]) == Some(next);
      BusyWorkerSteps(c, s, w);
    }
  }

  /** The writer has had everything begun so far. */
  lemma CaughtUpSteps(c: Plan, s: State)
    requires Sized(c) && Inv(c, s) && !s.producer.Done? && !s.emitter.aborted && s.emitter.next >= Begun(s)
    ensures Enabled(c, s)
  {
    if w :| 0 <= w < |s.workers| && s.workers[w] != Idle {
      BusyWorkerSteps(c, s, w);
    } else {
      IdleWorkersStep(c, s);
    }
  }

  lemma InvSteps(c: Plan, s: State)
    requires Sized(c) && Inv(c, s) && !s.producer.Done?
    ensures Enabled(c, s) || Starved(c, s)
  {
    if s.emitter.aborted {
      AbortedSteps(c, s);
    } else if s.emitter.next < Begun(s) {
      NextBegunSteps(c, s);
    } else {
      CaughtUpSteps(c, s);
    }
  }

  lemma {:induction false} LostOnlyByFailure(c: Plan, acts: seq<Act>)
    requires Play(c, acts).Some? && forall i :: 0 <= i < |acts| ==> !acts[i].WorkerFails?
    ensures Play(c, acts).value.lost == {}
  {
    if acts != [] {
      LostOnlyByFailure(c, acts[..|acts| - 1]);
    }
  }

  /** While no sealing job has thrown, some thread can step until the send returns. */
  lemma NoDeadlock(c: Plan, acts: seq<Act>)
    requires Sized(c) && Play(c, acts).Some? && !Play(c, acts).value.producer.Done?
    requires forall i :: 0 <= i < |acts| ==> !acts[i].WorkerFails?
    ensures Enabled(c, Play(c, acts).value)
  {
    PlayKeepsInv(c, acts);
    LostOnlyByFailure(c, acts);
    InvSteps(c, Play(c, acts).value);
  }

  /** Nor does a job that throws, once the writer or the producer has aborted. */
  lemma NoDeadlockOnceAborted(c: Plan, acts: seq<Act>)
    requires Sized(c) && Play(c, acts).Some? && !Play(c, acts).value.producer.Done?
    requires Play(c, acts).value.emitter.aborted
    ensures Enabled(c, Play(c, acts).value)
  {
    PlayKeepsInv(c, acts);
    AbortedSteps(c, Play(c, acts).value);
  }

  // -- Every run ends -------------------------------------------------------

  function Work(w: Worker): nat {
    match w case Idle => 0 case Sealing(_) => 3 case Publishing(_) => 2 case Ending(_) => 1
  }

  function Load(workers: seq<Worker>): nat {
    if workers == [] then 0 else Load(workers[..|workers| - 1]) + Work(workers[|workers| - 1])
  }

  lemma {:induction false} LoadUpdate(workers: seq<Worker>, w: nat, to: Worker)
    requires w < |workers|
    ensures Load(workers[w := to]) == Load(workers) - Work(workers[w]) + Work(to)
  {
    var last := |workers| - 1;
    if w == last {
      assert workers[w := to][..last] == workers[..last];
    } else {
      assert workers[w := to][..last] == workers[..last][w := to];
      LoadUpdate(workers[..last], w, to);
    }
  }

  lemma {:induction false} NoLoadAtStart(n: nat)
    ensures Load(seq(n, _ => Idle)) == 0
  {
    if n > 0 {
      assert seq(n, _ => Idle)[..n - 1] == seq(n - 1, _ => Idle);
      NoLoadAtStart(n - 1);
    }
  }

  /** How many actions the threads can still take between them. */
  function Remaining(c: Plan, s: State): int {
    5 * (|c.sealed| - s.submitted) + 4 * |s.pool.queue| + Load(s.workers) + 3 * (|c.sealed| - s.emitter.next)
    + (match s.writer case Consuming => 3 case Writing(_) => 4 case Flushing => 2 case Failing => 1 case Stopped(_) => 0)
    + (match s.producer case Feeding => 3 case Declaring => 2 case Aborting => 2 case Joining(_) => 1 case Done(_) => 0)
  }

  lemma WorkerDecreases(c: Plan, s: State, w: nat, after: State)
    requires Inv(c, s) && (WorkerAfter(c, s, w) == Some(after) || WorkerFailed(s, w) == Some(after))
    ensures Remaining(c, after) < Remaining(c, s)
  {
    hide Inv;
    LoadUpdate(s.workers, w, after.workers[w]);
    assert after.workers == s.workers[w := after.workers[w]];
  }

  lemma WriterDecreases(c: Plan, s: State, after: State)
    requires Inv(c, s) && (WriterAfter(s) == Some(after) || WriterFailed(s) == Some(after))
    ensures Remaining(c, after) < Remaining(c, s)
  {
  }

  lemma ActDecreases(c: Plan, s: State, a: Act)
    requires Sized(c) && Inv(c, s) && After(c, s, a).Some?
    ensures Remaining(c, After(c, s, a).value) < Remaining(c, s)
  {
    var after := After(c, s, a).value;
    match a
    case ProducerActs =>
    case WorkerActs(w) => WorkerDecreases(c, s, w, after);
    case WorkerFails(w) => WorkerDecreases(c, s, w, after);
    case WriterActs => WriterDecreases(c, s, after);
    case WriterFails => WriterDecreases(c, s, after);
  }

  lemma {:induction false} RunsShrink(c: Plan, acts: seq<Act>)
    requires Sized(c) && Play(c, acts).Some?
    ensures |acts| + Remaining(c, Play(c, acts).value) <= 8 * |c.sealed| + 6
  {
    if acts == [] {
      NoLoadAtStart(c.workers);
    } else {
      var before := acts[..|acts| - 1];
      RunsShrink(c, before);
      PlayKeepsInv(c, before);
      ActDecreases(c, Play(c, before).value, acts[|acts| - 1]);
    }
  }

  /** No interleaving takes more than eight actions a chunk and six more. */
  lemma EveryRunEnds(c: Plan, acts: seq<Act>)
    requires Sized(c) && Play(c, acts).Some?
    ensures |acts| <= 8 * |c.sealed| + 6
  {
    RunsShrink(c, acts);
    PlayKeepsInv(c, acts);
    TakenAsSealed(c, Play(c, acts).value);
  }
}
