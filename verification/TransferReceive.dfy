/** Receiving a transfer, and why the files end up equal. */
module TransferReceive {

  import opened Bytes
  import opened ChunkPlanning
  import opened FileTransfer

  // -- Files on disk --------------------------------------------------------

  function Zeros(n: nat): (z: seq<byte>)
    ensures |z| == n
  {
    seq(n, _ => 0)
  }

  /** A write past the end fills the gap with zeros; a write of nothing does nothing. */
  function WriteAt(content: seq<byte>, at: nat, data: seq<byte>): seq<byte> {
    if data == [] then content
    else
      var start := if |content| < at then content + Zeros(at - |content|) else content[..at];
      start + data + if at + |data| < |content| then content[at + |data|..] else []
  }

  lemma WriteInside(content: seq<byte>, at: nat, data: seq<byte>)
    requires at + |data| <= |content|
    ensures var after := WriteAt(content, at, data);
            && |after| == |content|
            && forall p :: 0 <= p < |content| ==> after[p] == if at <= p < at + |data| then data[p - at] else content[p]
  {
  }

  /** Two adjacent pieces make one write. */
  lemma WriteAdjacent(content: seq<byte>, at: nat, left: seq<byte>, right: seq<byte>)
    ensures WriteAt(WriteAt(content, at, left), at + |left|, right) == WriteAt(content, at, left + right)
  {
    if left == [] {
      assert left + right == right;
    } else if right == [] {
      assert left + right == left;
    } else {
      var whole, first := WriteAt(content, at, left + right), WriteAt(content, at, left);
      assert whole == WriteAt(first, at + |left|, right);
    }
  }

  lemma NextPiece(content: seq<byte>, at: nat, data: seq<byte>, done: nat, n: nat)
    requires done + n <= |data|
    ensures WriteAt(WriteAt(content, at, data[..done]), at + done, data[done..done + n]) ==
            WriteAt(content, at, data[..done + n])
  {
    WriteAdjacent(content, at, data[..done], data[done..done + n]);
    hide WriteAt;
    assert data[..done] + data[done..done + n] == data[..done + n];
  }

  datatype Answer = Wrote(count: nat) | Interrupted | Error

  datatype WriteStatus = Finished | Failed | Waiting

  /** Writes until everything is in, whatever the system accepts at a time. */
  method PwriteAll(content: seq<byte>, data: seq<byte>, offset: nat, answers: seq<Answer>)
    returns (after: seq<byte>, status: WriteStatus, done: nat)
    ensures done <= |data| && after == WriteAt(content, offset, data[..done])
    ensures status == Finished ==> done == |data| && after == WriteAt(content, offset, data)
    ensures status == Failed ==> exists i :: 0 <= i < |answers| && answers[i] in {Error, Wrote(0)}
  {
    after, done := content, 0;
    assert after == WriteAt(content, offset, data[..0]);
    hide WriteAt;
    var i := 0;
    while done < |data|
      invariant done <= |data| && i <= |answers|
      invariant after == WriteAt(content, offset, data[..done])
      decreases |answers| - i
    {
      if i == |answers| {
        return after, Waiting, done;
      }
      match answers[i] {
        case Interrupted =>
        case Error => return after, Failed, done;
        case Wrote(count) =>
          if count == 0 {
            return after, Failed, done;
          }
          var n := if count < |data| - done then count else |data| - done;
          NextPiece(content, offset, data, done, n);
          after := WriteAt(after, offset + done, data[done..done + n]);
          done := done + n;
      }
      i := i + 1;
    }
    assert data[..done] == data;
    status := Finished;
  }

  /** Every output created, emptied and given its size. */
  function Opened(disk: Disk, paths: seq<Path>, sizes: seq<nat>): Disk
    requires |paths| == |sizes|
  {
    if paths == [] then disk
    else
      var last := |paths| - 1;
      Opened(disk, paths[..last], sizes[..last])[paths[last] := Zeros(sizes[last])]
  }

  method OpenOutputs(disk: Disk, paths: seq<Path>, sizes: seq<nat>) returns (files: Disk)
    requires |paths| == |sizes|
    ensures files == Opened(disk, paths, sizes)
  {
    files := disk;
    var i := 0;
    while i < |paths|
      invariant i <= |paths| && files == Opened(disk, paths[..i], sizes[..i])
    {
      files := files[paths[i] := Zeros(sizes[i])];
      assert paths[..i + 1][..i] == paths[..i] && sizes[..i + 1][..i] == sizes[..i];
      i := i + 1;
    }
    assert paths[..i] == paths && sizes[..i] == sizes;
  }

  // -- Workers --------------------------------------------------------------

  datatype Job = Job(header: ChunkHeader, data: seq<byte>, done: nat, counted: bool)

  /** `written` counts the bytes of each file whose chunks are all there. */
  datatype Receiving = Receiving(disk: Disk, jobs: seq<Job>, written: seq<nat>)

  function Begin(t: Transfer, disk: Disk): Receiving
    requires |t.paths| == |t.sources|
  {
    Receiving(Opened(disk, t.paths, Sizes(t.sources)), [], seq(|t.paths|, _ => 0))
  }

  datatype Act = Arrives | Writes(job: nat, count: nat) | Counts(job: nat)

  /** The next `count` bytes of a job reach the disk. */
  function Landing(t: Transfer, disk: Disk, j: Job, count: nat): Disk
    requires j.header.file < |t.paths| && t.paths[j.header.file] in disk && j.done + count <= |j.data|
  {
    var path := t.paths[j.header.file];
    disk[path := WriteAt(disk[path], j.header.offset + j.done, j.data[j.done..j.done + count])]
  }

  /** None where the action is impossible, or the receiver gives up. */
  function After(t: Transfer, frames: seq<seq<byte>>, s: Receiving, a: Act): Option<Receiving> {
    match a
    case Arrives =>
      if |s.jobs| >= |frames| then None
      else
        var r := Admit(t.protection, Sizes(t.sources), t.chunkSize, |s.jobs|, frames[|s.jobs|]);
        if r.Refused? then None else Some(s.(jobs := s.jobs + [Job(r.header, r.data, 0, false)]))
    case Writes(k, count) =>
      if k >= |s.jobs| then None
      else
        var j := s.jobs[k];
        if count == 0 || j.done + count > |j.data| || j.header.file >= |t.paths| || t.paths[j.header.file] !in s.disk then None
        else
          Some(s.(disk := Landing(t, s.disk, j, count), jobs := s.jobs[k := j.(done := j.done + count)]))
    case Counts(k) =>
      if k >= |s.jobs| then None
      else
        var j := s.jobs[k];
        if j.counted || j.done != |j.data| || j.header.file >= |s.written| then None
        else
          Some(s.(written := s.written[j.header.file := s.written[j.header.file] + |j.data|],
                  jobs := s.jobs[k := j.(counted := true)]))
  }

  function Play(t: Transfer, disk: Disk, frames: seq<seq<byte>>, acts: seq<Act>): Option<Receiving>
    requires |t.paths| == |t.sources|
  {
    if acts == [] then Some(Begin(t, disk))
    else
      var before := Play(t, disk, frames, acts[..|acts| - 1]);
      if before.None? then None else After(t, frames, before.value, acts[|acts| - 1])
  }

  /** The receive loop has ended and the pool has drained. */
  predicate Complete(frames: seq<seq<byte>>, s: Receiving) {
    |s.jobs| == |frames| && forall k :: 0 <= k < |s.jobs| ==> s.jobs[k].counted
  }

  /** What `finalise_outputs` insists on. */
  predicate AllWritten(t: Transfer, s: Receiving) {
    |s.written| == |t.sources| && forall i :: 0 <= i < |s.written| ==> s.written[i] == |t.sources[i]|
  }

  /** Every output holds its source. */
  ghost predicate Delivered(t: Transfer, disk: Disk)
    requires |t.paths| == |t.sources|
  {
    forall i :: 0 <= i < |t.paths| ==> t.paths[i] in disk && disk[t.paths[i]] == t.sources[i]
  }

  /** Entries that share a path agree on what goes there. */
  ghost predicate Agreeing(t: Transfer)
    requires |t.paths| == |t.sources|
  {
    forall i, j :: 0 <= i < |t.paths| && 0 <= j < |t.paths| && t.paths[i] == t.paths[j] ==> t.sources[i] == t.sources[j]
  }

  /** The frames the sender makes of its plan. */
  ghost predicate FramesOf(t: Transfer, frames: seq<seq<byte>>)
    requires t.chunkSize > 0
  {
    && |frames| == |Chunks(t)|
    && forall k :: 0 <= k < |frames| ==> Inside(Chunks(t)[k], t.sources) && frames[k] == FrameFor(t, Chunks(t)[k], k)
  }

  // -- What every interleaving keeps ----------------------------------------

  ghost predicate JobOk(t: Transfer, c: ChunkPlan, k: nat, j: Job) {
    && Inside(c, t.sources) && j.header == HeaderOf(c, k) && j.data == Slice(t.sources, c)
    && j.done <= |j.data| && (j.counted ==> j.done == |j.data|)
  }

  ghost predicate Shaped(t: Transfer, disk: Disk) {
    && |t.paths| == |t.sources|
    && forall i :: 0 <= i < |t.paths| ==> t.paths[i] in disk && |disk[t.paths[i]]| == |t.sources[i]|
  }

  /** What a job has written is what the source holds there. */
  ghost predicate Landed(t: Transfer, disk: Disk, j: Job)
    requires Shaped(t, disk)
  {
    j.header.file < |t.paths| ==>
      forall p :: j.header.offset <= p < j.header.offset + j.done && p < |t.sources[j.header.file]| ==>
        disk[t.paths[j.header.file]][p] == t.sources[j.header.file][p]
  }

  function Counted(jobs: seq<Job>, file: nat): nat {
    if jobs == [] then 0
    else
      var last := jobs[|jobs| - 1];
      Counted(jobs[..|jobs| - 1], file) + if last.counted && last.header.file == file then |last.data| else 0
  }

  ghost predicate Inv(t: Transfer, frames: seq<seq<byte>>, s: Receiving)
    requires t.chunkSize > 0
  {
    && Shaped(t, s.disk)
    && |s.jobs| <= |frames| == |Chunks(t)|
    && (forall k :: 0 <= k < |s.jobs| ==> JobOk(t, Chunks(t)[k], k, s.jobs[k]))
    && (forall k :: 0 <= k < |s.jobs| ==> Landed(t, s.disk, s.jobs[k]))
    && |s.written| == |t.paths|
    && (forall i :: 0 <= i < |s.written| ==> s.written[i] == Counted(s.jobs, i))
  }

  lemma {:induction false} CountedUpdate(jobs: seq<Job>, k: nat, j: Job, file: nat)
    requires k < |jobs|
    ensures Counted(jobs[k := j], file) ==
            Counted(jobs, file) - (if jobs[k].counted && jobs[k].header.file == file then |jobs[k].data| else 0)
            + if j.counted && j.header.file == file then |j.data| else 0
  {
    var last := |jobs| - 1;
    if k == last {
      assert jobs[k := j][..last] == jobs[..last];
    } else {
      assert jobs[k := j][..last] == jobs[..last][k := j];
      CountedUpdate(jobs[..last], k, j, file);
    }
  }

  lemma {:induction false} OpenedShaped(disk: Disk, paths: seq<Path>, sizes: seq<nat>, i: nat)
    requires |paths| == |sizes| && i < |paths|
    requires forall i, j :: 0 <= i < |paths| && 0 <= j < |paths| && paths[i] == paths[j] ==> sizes[i] == sizes[j]
    ensures paths[i] in Opened(disk, paths, sizes) && |Opened(disk, paths, sizes)[paths[i]]| == sizes[i]
  {
    var last := |paths| - 1;
    if paths[i] != paths[last] {
      OpenedShaped(disk, paths[..last], sizes[..last], i);
    }
  }

  lemma BeginInv(t: Transfer, disk: Disk, frames: seq<seq<byte>>)
    requires Legal(t) && Agreeing(t) && FramesOf(t, frames)
    ensures Inv(t, frames, Begin(t, disk))
  {
    var sizes := Sizes(t.sources);
    forall i | 0 <= i < |t.paths|
      ensures t.paths[i] in Opened(disk, t.paths, sizes) && |Opened(disk, t.paths, sizes)[t.paths[i]]| == |t.sources[i]|
    {
      OpenedShaped(disk, t.paths, sizes, i);
    }
  }

  lemma ArrivalKeepsInv(t: Transfer, frames: seq<seq<byte>>, s: Receiving)
    requires Legal(t) && FramesOf(t, frames) && Inv(t, frames, s) && |s.jobs| < |frames|
    ensures After(t, frames, s, Arrives).Some?
    ensures Inv(t, frames, After(t, frames, s, Arrives).value)
  {
    var k := |s.jobs|;
    PlannedAdmitted(t, k);
    hide Admit, FrameFor, Chunks;
    var after := After(t, frames, s, Arrives).value;
    assert after.jobs[..k] == s.jobs;
    assert JobOk(t, Chunks(t)[k], k, after.jobs[k]);
    assert forall i :: 0 <= i < |s.written| ==> Counted(after.jobs, i) == Counted(s.jobs, i);
  }

  /** A piece that lands in one job leaves what the others wrote alone. */
  lemma PieceLands(t: Transfer, disk: Disk, j: Job, count: nat, c: ChunkPlan, k: nat, other: Job)
    requires Shaped(t, disk) && Agreeing(t) && JobOk(t, c, k, j) && j.done + count <= |j.data| && count > 0
    requires Landed(t, disk, other)
    ensures var path := t.paths[c.file];
            var after := disk[path := WriteAt(disk[path], c.offset + j.done, j.data[j.done..j.done + count])];
            && Shaped(t, after)
            && Landed(t, after, other)
            && (other == j ==> Landed(t, after, j.(done := j.done + count)))
  {
    var path := t.paths[c.file];
    WriteInside(disk[path], c.offset + j.done, j.data[j.done..j.done + count]);
    assert forall p :: c.offset + j.done <= p < c.offset + j.done + count ==>
        j.data[j.done..j.done + count][p - (c.offset + j.done)] == t.sources[c.file][p];
  }

  lemma AllLand(t: Transfer, disk: Disk, jobs: seq<Job>, k: nat, count: nat, c: ChunkPlan, later: seq<Job>)
    requires Shaped(t, disk) && Agreeing(t)
    requires forall i :: 0 <= i < |jobs| ==> Landed(t, disk, jobs[i])
    requires k < |jobs| && JobOk(t, c, k, jobs[k]) && jobs[k].done + count <= |jobs[k].data| && count > 0
    requires later == jobs[k := jobs[k].(done := jobs[k].done + count)]
    ensures var after := Landing(t, disk, jobs[k], count);
            Shaped(t, after) && forall i :: 0 <= i < |later| ==> Landed(t, after, later[i])
  {
    hide WriteAt, Landed, Slice;
    PieceLands(t, disk, jobs[k], count, c, k, jobs[k]);
    var after := Landing(t, disk, jobs[k], count);
    forall i | 0 <= i < |later| ensures Landed(t, after, later[i]) {
      PieceLands(t, disk, jobs[k], count, c, k, jobs[i]);
    }
  }

  lemma WriteKeepsInv(t: Transfer, frames: seq<seq<byte>>, s: Receiving, k: nat, count: nat)
    requires Legal(t) && Agreeing(t) && Inv(t, frames, s) && After(t, frames, s, Writes(k, count)).Some?
    ensures Inv(t, frames, After(t, frames, s, Writes(k, count)).value)
  {
    var j, after := s.jobs[k], After(t, frames, s, Writes(k, count)).value;
    hide Chunks, WriteAt, Landed, Counted, Slice, Shaped, Legal, Agreeing;
    assert JobOk(t, Chunks(t)[k], k, j);
    AllLand(t, s.disk, s.jobs, k, count, Chunks(t)[k], after.jobs);
    forall i | 0 <= i < |s.written| ensures Counted(after.jobs, i) == Counted(s.jobs, i) {
      CountedUpdate(s.jobs, k, after.jobs[k], i);
    }
  }

  lemma CountKeepsInv(t: Transfer, frames: seq<seq<byte>>, s: Receiving, k: nat)
    requires Legal(t) && Inv(t, frames, s) && After(t, frames, s, Counts(k)).Some?
    ensures Inv(t, frames, After(t, frames, s, Counts(k)).value)
  {
    var after := After(t, frames, s, Counts(k)).value;
    hide Chunks;
    forall i | 0 <= i < |s.written| ensures after.written[i] == Counted(after.jobs, i) {
      CountedUpdate(s.jobs, k, after.jobs[k], i);
    }
  }

  lemma {:induction false} PlayKeepsInv(t: Transfer, disk: Disk, frames: seq<seq<byte>>, acts: seq<Act>)
    requires Legal(t) && Agreeing(t) && FramesOf(t, frames) && Play(t, disk, frames, acts).Some?
    ensures Inv(t, frames, Play(t, disk, frames, acts).value)
  {
    if acts == [] {
      BeginInv(t, disk, frames);
    } else {
      var before := acts[..|acts| - 1];
      PlayKeepsInv(t, disk, frames, before);
      var s := Play(t, disk, frames, before).value;
      hide Inv;
      match acts[|acts| - 1]
      case Arrives => ArrivalKeepsInv(t, frames, s);
      case Writes(k, count) => WriteKeepsInv(t, frames, s, k, count);
      case Counts(k) => CountKeepsInv(t, frames, s, k);
    }
  }

  // -- The files are equal --------------------------------------------------

  /** The receiver never refuses a chunk of an honest sender. */
  lemma NothingRefused(t: Transfer, disk: Disk, frames: seq<seq<byte>>, acts: seq<Act>)
    requires Legal(t) && Agreeing(t) && FramesOf(t, frames) && Play(t, disk, frames, acts).Some?
    requires |Play(t, disk, frames, acts).value.jobs| < |frames|
    ensures Play(t, disk, frames, acts + [Arrives]).Some?
  {
    PlayKeepsInv(t, disk, frames, acts);
    ArrivalKeepsInv(t, frames, Play(t, disk, frames, acts).value);
    assert (acts + [Arrives])[..|acts|] == acts;
  }

  lemma {:induction false} AllCounted(t: Transfer, jobs: seq<Job>, plan: seq<ChunkPlan>, file: nat)
    requires |jobs| == |plan|
    requires forall k :: 0 <= k < |jobs| ==> JobOk(t, plan[k], k, jobs[k]) && jobs[k].counted
    ensures Counted(jobs, file) == FileBytes(plan, file)
  {
    if jobs != [] {
      AllCounted(t, jobs[..|jobs| - 1], plan[..|plan| - 1], file);
    }
  }

  lemma CompleteCounts(t: Transfer, frames: seq<seq<byte>>, s: Receiving)
    requires Legal(t) && Inv(t, frames, s) && Complete(frames, s)
    ensures AllWritten(t, s)
  {
    forall i | 0 <= i < |s.written| ensures s.written[i] == |t.sources[i]| {
      AllCounted(t, s.jobs, Chunks(t), i);
      PlanBytes(Sizes(t.sources), t.chunkSize, i);
    }
  }

  lemma ByteDelivered(t: Transfer, frames: seq<seq<byte>>, s: Receiving, i: nat, p: nat)
    requires Legal(t) && Inv(t, frames, s) && Complete(frames, s)
    requires i < |t.paths| && p < |t.sources[i]|
    ensures s.disk[t.paths[i]][p] == t.sources[i][p]
  {
    PlanTiles(Sizes(t.sources), t.chunkSize);
    assert CoveredBySome(Chunks(t), i, p);
    hide Chunks;
    var k :| 0 <= k < |Chunks(t)| && Covers(Chunks(t)[k], i, p);
    assert JobOk(t, Chunks(t)[k], k, s.jobs[k]) && Landed(t, s.disk, s.jobs[k]);
  }

  lemma CompleteDelivers(t: Transfer, frames: seq<seq<byte>>, s: Receiving)
    requires Legal(t) && Inv(t, frames, s) && Complete(frames, s)
    ensures Delivered(t, s.disk)
  {
    forall i | 0 <= i < |t.paths| ensures s.disk[t.paths[i]] == t.sources[i] {
      forall p | 0 <= p < |t.sources[i]| ensures s.disk[t.paths[i]][p] == t.sources[i][p] {
        ByteDelivered(t, frames, s, i, p);
      }
    }
  }

  /**
   * However the workers interleave, a complete transfer passes the final count
   * and leaves every output equal to its source.
   */
  lemma TransferDelivers(t: Transfer, disk: Disk, frames: seq<seq<byte>>, acts: seq<Act>)
    requires Legal(t) && Agreeing(t) && FramesOf(t, frames)
    requires Play(t, disk, frames, acts).Some? && Complete(frames, Play(t, disk, frames, acts).value)
    ensures AllWritten(t, Play(t, disk, frames, acts).value)
    ensures Delivered(t, Play(t, disk, frames, acts).value.disk)
  {
    PlayKeepsInv(t, disk, frames, acts);
    CompleteCounts(t, frames, Play(t, disk, frames, acts).value);
    CompleteDelivers(t, frames, Play(t, disk, frames, acts).value);
  }

  /** Entries with one path and different contents are the only obstacle. */
  lemma DeliveredIffAgreeing(t: Transfer, disk: Disk, frames: seq<seq<byte>>, acts: seq<Act>)
    requires Legal(t) && FramesOf(t, frames)
    requires Play(t, disk, frames, acts).Some? && Complete(frames, Play(t, disk, frames, acts).value)
    ensures Delivered(t, Play(t, disk, frames, acts).value.disk) <==> Agreeing(t)
  {
    if Agreeing(t) {
      TransferDelivers(t, disk, frames, acts);
    }
  }

  lemma DistinctPathsAgree(t: Transfer)
    requires |t.paths| == |t.sources|
    requires forall i, j :: 0 <= i < j < |t.paths| ==> t.paths[i] != t.paths[j]
    ensures Agreeing(t)
  {
  }

  /** Until a transfer is complete, the receiver or a worker can go on. */
  lemma ReceiverCanStep(t: Transfer, disk: Disk, frames: seq<seq<byte>>, acts: seq<Act>)
    requires Legal(t) && Agreeing(t) && FramesOf(t, frames) && Play(t, disk, frames, acts).Some?
    requires !Complete(frames, Play(t, disk, frames, acts).value)
    ensures exists a :: After(t, frames, Play(t, disk, frames, acts).value, a).Some?
  {
    PlayKeepsInv(t, disk, frames, acts);
    var s := Play(t, disk, frames, acts).value;
    hide Chunks, WriteAt;
    if |s.jobs| < |frames| {
      ArrivalKeepsInv(t, frames, s);
    } else {
      var k :| 0 <= k < |s.jobs| && !s.jobs[k].counted;
      assert JobOk(t, Chunks(t)[k], k, s.jobs[k]);
      if s.jobs[k].done < |s.jobs[k].data| {
        assert After(t, frames, s, Writes(k, 1)).Some?;
      } else {
        assert After(t, frames, s, Counts(k)).Some?;
      }
    }
  }

  // -- The receive loop without workers -------------------------------------

  lemma {:induction false} OpenedHasAll(disk: Disk, paths: seq<Path>, sizes: seq<nat>)
    requires |paths| == |sizes|
    ensures forall i :: 0 <= i < |paths| ==> paths[i] in Opened(disk, paths, sizes)
  {
    if paths != [] {
      OpenedHasAll(disk, paths[..|paths| - 1], sizes[..|sizes| - 1]);
    }
  }

  lemma PlayOn(t: Transfer, disk: Disk, frames: seq<seq<byte>>, acts: seq<Act>, a: Act)
    requires |t.paths| == |t.sources| && Play(t, disk, frames, acts).Some?
    ensures Play(t, disk, frames, acts + [a]) == After(t, frames, Play(t, disk, frames, acts).value, a)
  {
    assert (acts + [a])[..|acts|] == acts;
  }

  /**
   * Chunk after chunk in the order of arrival, each written at once. Stops at the
   * first chunk it has to refuse, whoever sent it.
   */
  method ReceiveInOrder(t: Transfer, disk: Disk, frames: seq<seq<byte>>)
    returns (s: Receiving, refusal: Option<Refusal>, ghost acts: seq<Act>)
    requires |t.paths| == |t.sources|
    ensures Play(t, disk, frames, acts) == Some(s)
    ensures refusal.None? ==> Complete(frames, s)
    ensures refusal.Some? ==>
              && |s.jobs| < |frames|
              && Admit(t.protection, Sizes(t.sources), t.chunkSize, |s.jobs|, frames[|s.jobs|]) == Refused(refusal.value)
  {
    s, acts := Begin(t, disk), [];
    OpenedHasAll(disk, t.paths, Sizes(t.sources));
    refusal := None;
    while |s.jobs| < |frames|
      invariant |s.jobs| <= |frames| && |s.written| == |t.paths|
      invariant Play(t, disk, frames, acts) == Some(s)
      invariant forall i :: 0 <= i < |t.paths| ==> t.paths[i] in s.disk
      invariant forall k :: 0 <= k < |s.jobs| ==> s.jobs[k].counted
      decreases |frames| - |s.jobs|
    {
      var r := Admit(t.protection, Sizes(t.sources), t.chunkSize, |s.jobs|, frames[|s.jobs|]);
      if r.Refused? {
        return s, Some(r.why), acts;
      }
      s, acts := TakeChunk(t, disk, frames, s, acts, r.header, r.data);
    }
  }

  method TakeChunk(t: Transfer, ghost disk: Disk, ghost frames: seq<seq<byte>>, before: Receiving, ghost so: seq<Act>,
                   header: ChunkHeader, data: seq<byte>)
    returns (s: Receiving, ghost acts: seq<Act>)
    requires |t.paths| == |t.sources| && Play(t, disk, frames, so) == Some(before) && |before.jobs| < |frames|
    requires Admit(t.protection, Sizes(t.sources), t.chunkSize, |before.jobs|, frames[|before.jobs|]) == Admitted(header, data)
    requires |before.written| == |t.paths| && forall i :: 0 <= i < |t.paths| ==> t.paths[i] in before.disk
    ensures Play(t, disk, frames, acts) == Some(s)
    ensures s.jobs == before.jobs + [Job(header, data, |data|, true)] && |s.written| == |t.paths|
    ensures s.disk.Keys == before.disk.Keys
  {
    var k := |before.jobs|;
    ghost var arrived := so + [Arrives];
    PlayOn(t, disk, frames, so, Arrives);
    assert header.file < |t.paths|;
    s := before.(jobs := before.jobs + [Job(header, data, 0, false)]);
    acts := arrived;
    hide Admit, Play, After;
    if data != [] {
      var path := t.paths[header.file];
      PlayOn(t, disk, frames, acts, Writes(k, |data|));
      WholeChunk(t, frames, s, before.jobs, header, data);
      s := s.(disk := s.disk[path := WriteAt(s.disk[path], header.offset, data)],
              jobs := before.jobs + [Job(header, data, |data|, false)]);
      acts := acts + [Writes(k, |data|)];
    }
    PlayOn(t, disk, frames, acts, Counts(k));
    ChunkCounted(t, frames, s, before.jobs, header, data);
    s := s.(written := s.written[header.file := s.written[header.file] + |data|],
            jobs := before.jobs + [Job(header, data, |data|, true)]);
    acts := acts + [Counts(k)];
  }

  lemma WholeChunk(t: Transfer, frames: seq<seq<byte>>, s: Receiving, jobs: seq<Job>, h: ChunkHeader, data: seq<byte>)
    requires s.jobs == jobs + [Job(h, data, 0, false)] && data != [] && h.file < |t.paths| && t.paths[h.file] in s.disk
    ensures var path := t.paths[h.file];
            After(t, frames, s, Writes(|jobs|, |data|)) ==
            Some(s.(disk := s.disk[path := WriteAt(s.disk[path], h.offset, data)],
                    jobs := jobs + [Job(h, data, |data|, false)]))
  {
    hide WriteAt;
    assert data[0..0 + |data|] == data;
    assert s.jobs[|jobs| := Job(h, data, |data|, false)] == jobs + [Job(h, data, |data|, false)];
  }

  lemma ChunkCounted(t: Transfer, frames: seq<seq<byte>>, s: Receiving, jobs: seq<Job>, h: ChunkHeader, data: seq<byte>)
    requires s.jobs == jobs + [Job(h, data, |data|, false)] && h.file < |s.written|
    ensures After(t, frames, s, Counts(|jobs|)) ==
            Some(s.(written := s.written[h.file := s.written[h.file] + |data|],
                    jobs := jobs + [Job(h, data, |data|, true)]))
  {
    assert s.jobs[|jobs| := Job(h, data, |data|, true)] == jobs + [Job(h, data, |data|, true)];
  }
}
