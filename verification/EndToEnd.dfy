/** From the files the sender maps to the files the receiver finalises. */
module EndToEnd {

  import opened Bytes
  import opened FileTransfer
  import opened TransferReceive
  import S = SendPipeline

  function FramesFrom(t: Transfer, k: nat): seq<seq<byte>>
    requires t.chunkSize > 0 && k <= |Chunks(t)|
  {
    if k == 0 then []
    else
      PlannedInside(t, k - 1);
      FramesFrom(t, k - 1) + [FrameFor(t, Chunks(t)[k - 1], k - 1)]
  }

  /** The chunks the sender's jobs seal. */
  function Frames(t: Transfer): seq<seq<byte>>
    requires t.chunkSize > 0
  {
    FramesFrom(t, |Chunks(t)|)
  }

  lemma {:induction false} FramesFromOk(t: Transfer, k: nat)
    requires t.chunkSize > 0 && k <= |Chunks(t)|
    ensures |FramesFrom(t, k)| == k
    ensures forall i :: 0 <= i < k ==> Inside(Chunks(t)[i], t.sources) && FramesFrom(t, k)[i] == FrameFor(t, Chunks(t)[i], i)
  {
    hide FrameFor, Chunks;
    if k > 0 {
      PlannedInside(t, k - 1);
      FramesFromOk(t, k - 1);
    }
  }

  /**
   * Whatever the sender's threads and the receiver's workers do: once the send has
   * returned cleanly and the receiver has drained, every file is there.
   */
  lemma FilesArrive(t: Transfer, workers: nat, sends: seq<S.Act>, disk: Disk, receives: seq<Act>)
    requires Legal(t) && Agreeing(t) && workers > 0
    requires var sent := S.Play(S.PlanFor(Frames(t), workers), sends); sent.Some? && sent.value.producer == S.Done(true)
    requires var output := S.Play(S.PlanFor(Frames(t), workers), sends).value.output;
             var r := Play(t, disk, output, receives);
             r.Some? && Complete(output, r.value)
    ensures var output := S.Play(S.PlanFor(Frames(t), workers), sends).value.output;
            var r := Play(t, disk, output, receives).value;
            Delivered(t, r.disk) && AllWritten(t, r)
  {
    var c := S.PlanFor(Frames(t), workers);
    S.DoneMeansSent(c, sends);
    FramesFromOk(t, |Chunks(t)|);
    TransferDelivers(t, disk, Frames(t), receives);
  }

  /** In particular for any manifest with distinct paths. */
  lemma DistinctFilesArrive(t: Transfer, workers: nat, sends: seq<S.Act>, disk: Disk, receives: seq<Act>)
    requires Legal(t) && workers > 0
    requires forall i, j :: 0 <= i < j < |t.paths| ==> t.paths[i] != t.paths[j]
    requires var sent := S.Play(S.PlanFor(Frames(t), workers), sends); sent.Some? && sent.value.producer == S.Done(true)
    requires var output := S.Play(S.PlanFor(Frames(t), workers), sends).value.output;
             var r := Play(t, disk, output, receives);
             r.Some? && Complete(output, r.value)
    ensures var output := S.Play(S.PlanFor(Frames(t), workers), sends).value.output;
            var r := Play(t, disk, output, receives).value;
            Delivered(t, r.disk) && AllWritten(t, r)
  {
    DistinctPathsAgree(t);
    FilesArrive(t, workers, sends, disk, receives);
  }

  /** What is on the channel before the send returns is never refused either. */
  lemma PartialSendAccepted(t: Transfer, workers: nat, sends: seq<S.Act>, k: nat)
    requires Legal(t) && workers > 0 && S.Play(S.PlanFor(Frames(t), workers), sends).Some?
    requires k < |S.Play(S.PlanFor(Frames(t), workers), sends).value.output|
    ensures k < |Chunks(t)| && Inside(Chunks(t)[k], t.sources)
    ensures var output := S.Play(S.PlanFor(Frames(t), workers), sends).value.output;
            Admit(t.protection, Sizes(t.sources), t.chunkSize, k, output[k]) ==
            Admitted(HeaderOf(Chunks(t)[k], k), Slice(t.sources, Chunks(t)[k]))
  {
    S.OutputInOrder(S.PlanFor(Frames(t), workers), sends);
    FramesFromOk(t, |Chunks(t)|);
    PlannedAdmitted(t, k);
  }
}
