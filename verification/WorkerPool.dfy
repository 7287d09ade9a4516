/** The bounded first-in first-out job queue in front of the sealing workers. */
module WorkerPool {

  import opened Bytes

  /** A job is known by the index of the chunk it seals. */
  type Job = nat

  datatype Pool = Pool(queue: seq<Job>, depth: nat, active: nat, failed: bool, stopping: bool)

  function NewPool(depth: nat): Pool { Pool([], if depth == 0 then 1 else depth, 0, false, false) }

  /** The wait in `submit` is over: there is room, or the job will not be queued at all. */
  predicate MaySubmit(p: Pool) { |p.queue| < p.depth || p.stopping || p.failed }

  function Submit(p: Pool, job: Job): Pool {
    if p.failed || p.stopping then p else p.(queue := p.queue + [job])
  }

  /** A worker has something to take. */
  predicate MayTake(p: Pool) { p.queue != [] }

  function Take(p: Pool): Pool
    requires MayTake(p)
  {
    p.(queue := p.queue[1..], active := p.active + 1)
  }

  function EndJob(p: Pool, failed: bool): Pool
    requires p.active > 0
  {
    p.(active := p.active - 1, failed := p.failed || failed)
  }

  /** `drain` waits for idleness alone: a failure does not end the wait. */
  predicate MayDrain(p: Pool) { (p.queue == [] && p.active == 0) || p.stopping }

  function Drain(p: Pool): Pool { p.(failed := false) }

  datatype Taking = Takes(job: Job) | Leaves | Waits

  datatype Submitted = Queued | Dropped | Thrown | MustWait

  class AeadPool {
    var queue: seq<Job>
    const depth: nat
    var active: nat
    var firstError: bool
    var stopping: bool

    ghost function State(): Pool
      reads this
    {
      Pool(queue, depth, active, firstError, stopping)
    }

    constructor (queueDepth: nat)
      ensures State() == NewPool(queueDepth)
    {
      depth := if queueDepth == 0 then 1 else queueDepth;
      queue, active, firstError, stopping := [], 0, false, false;
    }

    /** One attempt; the caller waits and tries again on MustWait. */
    method TrySubmit(job: Job) returns (r: Submitted)
      modifies this`queue
      ensures r == MustWait <==> !MaySubmit(old(State()))
      ensures r == Thrown <==> old(firstError)
      ensures r == Queued <==> MaySubmit(old(State())) && State().queue == old(queue) + [job]
      ensures State() == if r == MustWait then old(State()) else Submit(old(State()), job)
    {
      if |queue| >= depth && !stopping && !firstError {
        return MustWait;
      }
      if firstError {
        return Thrown;
      }
      if stopping {
        return Dropped;
      }
      queue := queue + [job];
      r := Queued;
    }

    /** The oldest job; with none left, a worker leaves once the pool is stopping and waits otherwise. */
    method TryTake() returns (r: Taking)
      modifies this`queue, this`active
      ensures r.Takes? <==> MayTake(old(State()))
      ensures r.Takes? ==> r.job == old(queue)[0] && State() == Take(old(State()))
      ensures r == Leaves <==> !MayTake(old(State())) && old(stopping)
      ensures !r.Takes? ==> State() == old(State())
    {
      if queue == [] && !stopping {
        return Waits;
      }
      if queue == [] {
        return Leaves;
      }
      r := Takes(queue[0]);
      queue := queue[1..];
      active := active + 1;
    }

    method JobEnded(failed: bool)
      requires active > 0
      modifies this`active, this`firstError
      ensures State() == EndJob(old(State()), failed)
    {
      active := active - 1;
      if failed && !firstError {
        firstError := true;
      }
    }

    /** None while the pool is busy, otherwise whether a failure is reported. */
    method TryDrain() returns (r: Option<bool>)
      modifies this`firstError
      ensures r.Some? <==> MayDrain(old(State()))
      ensures r.Some? ==> r.value == old(firstError) && State() == Drain(old(State()))
      ensures r.None? ==> State() == old(State())
    {
      if !((queue == [] && active == 0) || stopping) {
        return None;
      }
      r := Some(firstError);
      if firstError {
        firstError := false;
      }
    }

    method Stop()
      modifies this`stopping
      ensures State() == old(State()).(stopping := true)
    {
      stopping := true;
    }
  }
}
