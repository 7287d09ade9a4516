# drop-zone: verified models

drop-zone moves files between two machines that a rendezvous server introduces to
each other. This project models the parts of it that keep state over many steps,
and proves what they promise for every run.

- **Reliable UDP.** Two endpoints turn datagrams that may be lost, repeated and
  reordered into two byte streams. `UdpSender`, `UdpReceiver` and `UdpSystem`
  specify one endpoint and the network between two; `UdpGuarantees` proves the
  joint invariant and what follows from it; `UdpWrapping` carries it from unbounded
  sequence numbers to the 32-bit ones on the wire and `UdpWire` down to the bytes
  of the datagrams; `UdpPacing` puts the pacing bound in clock time. `UdpPump` and
  `UdpChannel` are the engine and the object with its fields and loops. `Congestion`
  and `UdpHeader` hold window, timer and pacing arithmetic and the datagram layout.
- **The parallel send.** A producer, a bounded job queue (`WorkerPool`), sealing
  workers, a ring that restores order (`OrderedEmission`) and one writer run
  interleaved in `SendPipeline`. `SendStarvation` says exactly when a sealing job
  that throws can hang a send.
- **The transfer.** `ChunkPlanning` cuts files into chunks, `FileTransfer` seals and
  checks them, `TransferReceive` writes them in any interleaving, and `EndToEnd`
  joins both sides. `PlainSend` is the send without workers, joined the same way.
- **The rendezvous server.** `SessionTables` holds claims, pairings and groups,
  `ServerSessions` the handlers as atomic steps, `ServerGuarantees` their invariant,
  `ServerPromises` what it means over whole runs, and `RendezvousServer` the object.
  `RateLimiting` is the token bucket.
- **The relay.** `RelayBackpressure` interleaves the pause and resume actions of two
  shards one by one. `RelayStream` follows a byte stream through both clients and
  the buffers of `ServerConnection`.
- **Wire formats.** `LittleEndian`, `Payload`, `Frames`, `Messages`,
  `ControlMessages`, `Names` and `ProofInputs`.

## How to read it

State that the program keeps in objects is kept in classes here: each method is
tied to a function of the old state, and the properties are proved about those
functions and the state machines built from them. A machine is a function from a
state and an action to the next state, `None` where the action is not possible;
`Play` follows a list of actions from the start, so a lemma about `Play` is a lemma
about every interleaving. A socket call, a clock reading or a scheduling choice is
an argument: a list of answers, a time, the order of actions.

The modelled behaviour follows the code. Where the code and its own texts differ:
`docs/PROTOCOL.md` gives the UDP header 24 bytes and lets the bitmap cover the
sequences before the acknowledgement, the code writes 22 bytes and covers those
after it; `session_table.hpp` says old pairings are dropped once their peers have
gone, the code drops a pairing that is old or whose peers are both gone;
`rate_limiter.hpp` speaks of evicting the least recently used bucket, the code
clears a full table.

Some properties hold only under a condition, which is proved to be exact. A stale
datagram is discarded exactly when its age modulo 2^32 lies between 1 and half the
sequence space (`UdpWrapping.StaleDiscarded`; `UdpWrapping.StaleDatagramAccepted` is
a receiver state and an input past it). A send can hang after a sealing job throws
exactly when it has more chunks than slots and either two workers or a queue at least
as deep as the ring (`SendStarvation.DeadlockIff`); at the sender's own sizes a lone
worker never hangs (`SendStarvation.SenderDeadlockIff`). A key gets more than its
burst and rate only when a full table is dropped, one burst each time at most
(`RateLimiting.RateBound`, `RateLimiting.ClearsLiftTheBound`).

Assumptions that are not proved: both peers run this program; no datagram outlives
half the sequence space; opening undoes sealing; fewer than 2^64 pairings are
created; clocks do not run backwards where a bound in time is stated; floating
point numbers are reals.

## Model

| member | source | states |
|---|---|---|
| `UdpGuarantees.ReadsArePrefixOfWrites` | client/src/reliable_udp.cpp:261-312 | in every state of every run of two endpoints over a network that drops, repeats and reorders, what one side has read is a prefix of what the other wrote, both ways |
| `UdpGuarantees.FlushMeansDelivered` | client/src/reliable_udp.cpp:314-321 | when nothing is queued or unacknowledged, every byte written has entered the peer's delivered stream; when a reader meets the end of the stream it has had everything |
| `UdpGuarantees.AcknowledgementsAreTrue` | client/src/reliable_udp.cpp:631-667 | a packet below the unacknowledged run was delivered by the peer, and one marked by the bitmap was delivered or is held in its reorder buffer, stale acknowledgements included |
| `UdpGuarantees.ReorderNeverOverflows` | client/src/reliable_udp.cpp:596-606 | the reorder buffer holds no more than the peer's unacknowledged run, which stays below one more than the window ceiling, so the overflow failure cannot happen |
| `UdpGuarantees.ControlsStayInRange` | client/src/reliable_udp.cpp:467-491 | window between its floor and ceiling with the fraction in [0,1), timer inside its clamp, smoothed round trip within the range of the samples taken |
| `UdpGuarantees.PacingBound` | client/src/reliable_udp.cpp:402-465 | between any two moments of a run first transmissions are at most one burst plus what the rate has earned |
| `UdpPacing.PacingRate` | client/src/reliable_udp.cpp:402-465 | with readings that do not go back and samples of at least `low`, first transmissions between any two moments are at most one burst plus the elapsed time times the largest window over the shorter of `low` and the assumed round trip |
| `UdpGuarantees.MirrorIsRun` | client/src/reliable_udp.cpp:342-356 | a run seen from the other endpoint is a run, so what is stated of one endpoint holds of both |
| `UdpGuarantees.DefaultsUsable` | client/include/dz/client/reliable_udp.hpp:83-127 | the default tuning meets the conditions the guarantees ask for |
| `UdpGuarantees.RunKeepsInv` | client/src/reliable_udp.cpp:342-356 | the joint invariant of both endpoints holds in every state of every run |
| `UdpGuarantees.ActKeepsInv` | client/src/reliable_udp.cpp:342-356 | every action of one endpoint keeps the joint invariant |
| `UdpSystem.ActKeepsFlow` | client/src/reliable_udp.cpp:431-465 | every action keeps the run of unacknowledged packets contiguous, the stream conserved and the acknowledgements sound in both directions |
| `UdpSystem.SendingKeeps` | client/src/reliable_udp.cpp:435-464 | cutting packets off the outgoing bytes loses and invents nothing |
| `UdpSystem.TimeoutKeeps` | client/src/reliable_udp.cpp:467-505 | resending the oldest packet leaves the stream as it was |
| `UdpSystem.ProcessAckKeeps` | client/src/reliable_udp.cpp:631-705 | an acknowledgement retires only what the peer delivered and marks only what it holds |
| `UdpSystem.AcceptDataKeeps` | client/src/reliable_udp.cpp:583-614 | a data packet, old or new, leaves the receive side holding exactly bytes the peer sent |
| `UdpSystem.ReceiveKeeps` | client/src/reliable_udp.cpp:571-629 | processing any datagram of the peer keeps the joint invariant |
| `UdpSystem.DeliverKeeps` | client/src/reliable_udp.cpp:707-731 | delivery extends the stream by the next contiguous payloads and forgets nothing |
| `UdpSystem.AcknowledgeKeeps` | client/src/reliable_udp.cpp:733-745 | the acknowledgement sent is true and its bitmap names only held packets |
| `UdpSystem.ReorderBounded` | client/src/reliable_udp.cpp:596-606 | held packets are a subset of the peer's unacknowledged run, hence no more numerous |
| `UdpWrapping.WireRunRefines` | client/src/reliable_udp.cpp:586-594 | every run with 32-bit numbers and signed differences is the image of a run with unbounded numbers, across any number of wraps, while live datagrams lie within half the space |
| `UdpWrapping.WireReadsArePrefixOfWrites` | client/src/reliable_udp.cpp:261-312 | the stream guarantee carries over to the 32-bit protocol |
| `UdpWrapping.StepRefines` | client/src/reliable_udp.cpp:637-660 | one 32-bit step is the image of one unbounded step |
| `UdpWrapping.StaleDiscarded` | client/src/reliable_udp.cpp:586-594 | a datagram from below the receive position is discarded exactly when its age modulo 2^32 lies between 1 and half the space |
| `UdpWrapping.StaleDatagramAccepted` | client/src/reliable_udp.cpp:586-594 | in a receiver state written down for it, a copy of the first packet that survives a whole turn of the counter is taken for new data |
| `SequenceNumbers.WireDistance` | client/src/reliable_udp.cpp:586-594 | the signed 32-bit difference is the true difference exactly within half the space |
| `Congestion.WindowBounded` | client/src/reliable_udp.cpp:669-685 | growth and both reductions keep the window between floor and ceiling and the fraction in [0,1) |
| `Congestion.AvoidanceIsAdditive` | client/src/reliable_udp.cpp:672-684 | k acknowledgements from window w raise window plus fraction by at most k/w |
| `Congestion.OnePacketPerRoundTrip` | client/src/reliable_udp.cpp:669-684 | in congestion avoidance a window's worth of acknowledgements adds at most one packet |
| `Congestion.SlowStartIsExponential` | client/src/reliable_udp.cpp:673-675 | below the threshold a window's worth of acknowledgements doubles the window |
| `Congestion.TimerClamped` | client/src/reliable_udp.cpp:862-878 | every update leaves the timer inside its clamp, as section 2 of RFC 6298 asks with these bounds |
| `Congestion.EstimateWithinSamples` | client/src/reliable_udp.cpp:862-878 | the smoothed round trip stays within any range that holds all samples |
| `UdpHeader.ParseEncode` | client/src/reliable_udp.cpp:48-84 | a datagram whose fields fit is read back, whatever follows it |
| `UdpHeader.ParseInRange` | client/src/reliable_udp.cpp:68-84 | whatever parses has fields within their widths and a payload within the limit |
| `UdpPump.PhasesAreSteps` | client/src/reliable_udp.cpp:342-356 | each phase of the engine is an action of the state machine the guarantees are about, whatever the peer sends in between |
| `UdpPump.WriteIsSteps` | client/src/reliable_udp.cpp:261-277 | a write is StartWrite, turns of the engine, and FinishWrite once it returns; its bytes join what was written |
| `UdpPump.FlushIsSteps` | client/src/reliable_udp.cpp:314-321 | a flush is turns of the engine |
| `UdpPump.ReadIsSteps` | client/src/reliable_udp.cpp:279-312 | a read is Reads and turns of the engine, and returns exactly what the Reads took from the stream |
| `UdpWire.RunFits` | client/src/reliable_udp.cpp:48-84 | in every state of every 32-bit run every datagram on its way fits its header, and so does every number kept |
| `UdpWire.DatagramsSurvive` | client/src/reliable_udp.cpp:48-84 | every datagram on its way in any 32-bit run parses back from its bytes |
| `UdpWire.SocketIsReceive` | client/src/reliable_udp.cpp:571-581 | reading the bytes of such a datagram off the socket is the Receive action of the state machine |
| `UdpWire.WireStreamFaithful` | client/src/reliable_udp.cpp:261-312 | the stream guarantee over 32-bit runs, with datagrams that are what their bytes say |
| `UdpPump.FailureIsFinal` | client/src/reliable_udp.cpp:342-356 | once a phase fails the rest of the turn does not happen |
| `UdpPump.ReadIsExact` | client/src/reliable_udp.cpp:279-312 | a read that finishes returns exactly as many bytes as asked for |
| `UdpChannel.ReliableUdpChannel.constructor` | client/include/dz/client/reliable_udp.hpp:83-127 | a new channel starts with the initial window, timer and sequence numbers |
| `UdpChannel.ReliableUdpChannel.RefillPacingTokens` | client/src/reliable_udp.cpp:402-419 | tokens after a refill |
| `UdpChannel.ReliableUdpChannel.FillWindow` | client/src/reliable_udp.cpp:431-465 | packets cut, numbered and sent while window and tokens allow, as the specification of sending says |
| `UdpChannel.ReliableUdpChannel.RetransmitTimedOut` | client/src/reliable_udp.cpp:467-505 | collapse, back-off and one resend on a timeout; failure after too many |
| `UdpChannel.ReliableUdpChannel.UpdateRtt` | client/src/reliable_udp.cpp:862-878 | the estimator's next state |
| `UdpChannel.ReliableUdpChannel.RetireCovered` | client/src/reliable_udp.cpp:636-649 | packets below the acknowledgement leave the queue, only first transmissions give samples |
| `UdpChannel.ReliableUdpChannel.MarkReported` | client/src/reliable_udp.cpp:655-667 | exactly the packets the bitmap reports are marked, and both counts are right |
| `UdpChannel.ReliableUdpChannel.GrowWindow` | client/src/reliable_udp.cpp:669-685 | window and timeout count after a number of acknowledgements |
| `UdpChannel.ReliableUdpChannel.FastRetransmit` | client/src/reliable_udp.cpp:687-703 | halving and one resend when enough packets beyond the gap are acknowledged |
| `UdpChannel.ReliableUdpChannel.ProcessAck` | client/src/reliable_udp.cpp:631-705 | the whole effect of one acknowledgement |
| `UdpChannel.ReliableUdpChannel.ProcessPacket` | client/src/reliable_udp.cpp:571-629 | the whole effect of one datagram, malformed ones included |
| `UdpChannel.ReliableUdpChannel.AcceptPacket` | client/src/reliable_udp.cpp:581-629 | what each kind of packet does after its acknowledgement |
| `UdpChannel.ReliableUdpChannel.DeliverInOrder` | client/src/reliable_udp.cpp:707-731 | contiguous packets delivered up to the backlog limit, then the buffer compacted |
| `UdpChannel.ReliableUdpChannel.SendAck` | client/src/reliable_udp.cpp:733-745 | the bitmap says for each of 64 sequences whether it is held |
| `UdpChannel.ReliableUdpChannel.SendControl` | client/src/reliable_udp.cpp:747-751 | a control packet carries the receive position |
| `UdpChannel.ReliableUdpChannel.Pump` | client/src/reliable_udp.cpp:342-356 | one turn of the engine, stopped where it fails |
| `UdpChannel.ReliableUdpChannel.ReceiveBatch` | client/src/reliable_udp.cpp:507-569 | datagrams processed in the order they arrive |
| `UdpChannel.ReliableUdpChannel.WriteBytes` | client/src/reliable_udp.cpp:261-277 | returns once every byte is on the wire, buffer reclaimed |
| `UdpChannel.ReliableUdpChannel.Flush` | client/src/reliable_udp.cpp:314-321 | returns only with nothing queued and nothing unacknowledged |
| `UdpChannel.ReliableUdpChannel.ReadLoop` | client/src/reliable_udp.cpp:290-311 | bytes copied in stream order, end of stream reported only when nothing is held |
| `UdpChannel.ReliableUdpChannel.ReadExactly` | client/src/reliable_udp.cpp:279-312 | opening turn, then exactly the bytes asked for |
| `RelayBackpressure.QueueBounded` | server/src/server.cpp:364-418 | in every interleaving of both shards the relayed bytes queued stay within the pause threshold plus two frames |
| `RelayBackpressure.FreshResumesBound` | server/src/server.cpp:372-380 | if no source action falls between the destination's comparison and its resume, one frame over the threshold is enough |
| `RelayBackpressure.BoundAttained` | server/src/server.cpp:916-952 | a run that reaches the bound exactly |
| `RelayBackpressure.ServerQueueBounded` | server/include/dz/server/connection.hpp:186-187 | 8 MiB and two headers for the server's constants, reached and never exceeded |
| `RelayBackpressure.ActKeepsInv` | server/src/server.cpp:944-949 | each separate action of either shard keeps the bound's invariant |
| `RelayStream.ReadsArePrefix` | client/src/transport_relay.cpp:41-75 | whatever the splits, partial sends and compactions, what one client reads is a prefix of what the other wrote |
| `RelayStream.NothingLost` | client/src/transport_relay.cpp:41-75 | with every buffer on the path empty, everything written has been read |
| `RelayStream.HeadersAccepted` | server/src/connection.cpp:111-124 | neither the server nor the reading client ever meets a header it refuses |
| `RelayStream.SplitCarries` | client/src/transport_relay.cpp:65-75 | a write becomes RelayData frames of at most 256 KiB that carry exactly its bytes |
| `RelayStream.ForwardKeeps` | server/src/server.cpp:916-952 | forwarding a frame moves its bytes from one leg to the other and nothing else |
| `RelayStream.RelayChannel.WriteBytes` | client/src/transport_relay.cpp:65-75 | the bytes put on the control connection are the encoded frames of the split |
| `RelayStream.RelayChannel.ReceiveFrame` | client/src/transport_relay.cpp:87-119 | a frame adds its payload to the inbox, closes it, is ignored, or fails |
| `RelayStream.RelayChannel.ReadExactly` | client/src/transport_relay.cpp:41-63 | bytes returned and bytes left are the inbox followed by what the fetched frames carry; how each outcome comes about |
| `ServerConnection.Connection.ReadAvailable` | server/src/connection.cpp:69-109 | input grows by exactly the bytes received, compaction or not, and stops at the cap; which answers close the connection |
| `ServerConnection.Connection.TakeFrame` | server/src/connection.cpp:111-124 | the next whole frame, or nothing taken |
| `ServerConnection.Connection.EnqueueFrame` | server/src/connection.cpp:130-159 | output grows by the encoded frame; an oversized one is refused |
| `ServerConnection.Connection.FlushOutput` | server/src/connection.cpp:168-205 | what leaves is a prefix of what was pending, and the rest stays; which answers kill the connection |
| `ServerConnection.Connection.CapNeverStalls` | server/src/connection.cpp:52-54 | an input buffer at its cap holds a whole frame or a header that is refused |
| `Frames.HeaderRoundTrip` | common/src/frame.cpp:43-68 | a header comes back exactly when its length is allowed |
| `Frames.NextOfStream` | server/src/connection.cpp:111-124 | what is buffered of a stream yields its first frame or is too short for it |
| `Frames.FullBufferHasFrame` | server/src/connection.cpp:19-22 | a buffer of the cap's size is never short of a frame |
| `Frames.ShortBufferMayStall` | server/src/connection.cpp:19-22 | any buffer shorter than a maximal frame can be short of one |
| `Frames.WriteFrame` | common/src/frame.cpp:74-130 | whatever the socket takes at a time, header and payload leave in order and completely |
| `Frames.Advance` | common/src/frame.cpp:117-129 | skipping sent bytes drops whole parts and trims the next |
| `OrderedEmission.TakenInOrder` | client/src/pipeline.cpp:65-89 | in every interleaving the consumer has had chunks 0, 1, 2, ... as published |
| `OrderedEmission.ReadySlotsExact` | client/src/pipeline.cpp:44-63 | ready slots are exactly the published indices not yet consumed, and a new index never lands on a ready slot |
| `OrderedEmission.PublishRefines` | client/src/pipeline.cpp:44-63 | a publisher past its wait finds its slot free and adds its chunk to the stream |
| `OrderedEmission.ConsumeRefines` | client/src/pipeline.cpp:65-89 | a consumer past its wait takes the next chunk of the stream |
| `OrderedEmission.OrderedEmitter.constructor` | client/src/pipeline.cpp:42-42 | an empty ring of at least one slot |
| `OrderedEmission.OrderedEmitter.TryPublish` | client/src/pipeline.cpp:44-63 | waits, refuses or stores, exactly as the ring's state says |
| `OrderedEmission.OrderedEmitter.TryConsume` | client/src/pipeline.cpp:65-89 | waits, ends, fails or takes, exactly as the ring's state says |
| `OrderedEmission.OrderedEmitter.SetTotal` | client/src/pipeline.cpp:91-98 | the total becomes known |
| `OrderedEmission.OrderedEmitter.Abort` | client/src/pipeline.cpp:100-107 | the ring is aborted |
| `WorkerPool.AeadPool.TrySubmit` | common/src/aead_pool.cpp:22-38 | waits for room, throws after a failure, drops when stopping, otherwise queues at the back |
| `WorkerPool.AeadPool.TryTake` | common/src/aead_pool.cpp:70-84 | the oldest job, counted as active; with none left a worker waits, or leaves once the pool is stopping |
| `WorkerPool.AeadPool.JobEnded` | common/src/aead_pool.cpp:94-106 | the active count falls and the first failure is kept |
| `WorkerPool.AeadPool.TryDrain` | common/src/aead_pool.cpp:40-52 | waits for idleness only; reports and clears a failure |
| `SendPipeline.NoDeadlock` | client/src/sender.cpp:168-262 | while no sealing job has thrown, some thread can step until the send returns, also after the writer has failed |
| `SendPipeline.NoDeadlockOnceAborted` | client/src/sender.cpp:213-217 | once aborted, some thread can step even if jobs have thrown |
| `SendPipeline.EveryRunEnds` | client/src/sender.cpp:168-262 | no interleaving takes more than eight actions a chunk and six more |
| `SendPipeline.DoneMeansSent` | client/src/sender.cpp:252-261 | a send that returns cleanly has put every sealed chunk on the channel, once and in order |
| `SendPipeline.OutputInOrder` | client/src/sender.cpp:199-212 | at every moment the channel carries a prefix of the sealed chunks |
| `SendPipeline.PlayKeepsInv` | client/src/sender.cpp:219-253 | the invariant over producer, queue, workers, ring and writer holds in every reachable state |
| `SendStarvation.DeadlockIff` | common/src/aead_pool.cpp:40-52 | for any sizes, a job that throws can hang the send exactly when there are more chunks than slots and either two workers or a queue at least as deep as the ring |
| `SendStarvation.SenderDeadlockIff` | client/src/sender.cpp:171-176 | with the sizes the sender picks a send can hang exactly with two workers or more and more chunks than slots; with one worker it never does |
| `ChunkPlanning.PlanChunks` | client/src/sender.cpp:34-55 | the nested loops compute the plan |
| `ChunkPlanning.PlanTiles` | client/src/sender.cpp:34-55 | chunks lie in their files, in order, without overlap, none longer than the chunk size, and leave no byte out |
| `ChunkPlanning.CoveredOnce` | client/src/sender.cpp:34-55 | no byte is in two chunks |
| `ChunkPlanning.PlanBytes` | client/src/sender.cpp:34-55 | the chunks of a file are together as long as the file |
| `FileTransfer.HeaderRoundTrip` | common/src/protocol.cpp:429-443 | a chunk header is read back |
| `FileTransfer.NoncesDiffer` | common/src/crypto.cpp:478-482 | no two counters of a session give the same nonce |
| `FileTransfer.PlannedAdmitted` | client/src/receiver.cpp:119-140 | the receiver's checks accept every planned chunk, sealed or plain, and recover the sender's bytes |
| `TransferReceive.PwriteAll` | common/src/fileio.cpp:150-167 | a finished write has put all the data in place; a failed one a prefix, and only after the system failed or took nothing |
| `TransferReceive.OpenOutputs` | client/src/receiver.cpp:88-116 | every output created, emptied and given its size, in order |
| `TransferReceive.TransferDelivers` | client/src/receiver.cpp:251-342 | however workers interleave partial writes, a complete transfer passes the final count and leaves every output equal to its source |
| `TransferReceive.DeliveredIffAgreeing` | client/src/receiver.cpp:88-116 | every output equals its source exactly when entries that share a path agree on its contents |
| `TransferReceive.NothingRefused` | client/src/receiver.cpp:251-273 | no chunk of an honest sender is refused at any point of any run |
| `TransferReceive.ReceiverCanStep` | client/src/receiver.cpp:251-340 | until a transfer is complete the receiver or a worker can go on |
| `TransferReceive.CompleteCounts` | client/src/receiver.cpp:162-179 | the bytes counted for each file are its size |
| `TransferReceive.ReceiveInOrder` | client/src/receiver.cpp:251-293 | the receive loop without workers is one of these runs; it stops exactly at a chunk it has to refuse |
| `EndToEnd.FilesArrive` | client/src/sender.cpp:168-262 | whatever the sender's threads and the receiver's workers do, a clean send and a drained receive leave every file equal and fully counted |
| `EndToEnd.DistinctFilesArrive` | client/src/sender.cpp:168-262 | the same for every manifest with distinct paths, whatever its files hold |
| `PlainSend.SendPlaintext` | client/src/sender.cpp:98-164 | spliced or copied, the loop puts the framed chunks of the plan on the channel in order; copying stops at the first chunk too long for a frame |
| `PlainSend.FramedReadBack` | client/src/receiver.cpp:251-263 | a reader takes exactly the chunks off a stream of framed chunks |
| `PlainSend.PlainFilesArrive` | client/src/sender.cpp:98-164 | however the receiver's workers interleave, the stream of a plain send leaves every file equal and fully counted |
| `PlainSend.TransferPlain` | client/src/sender.cpp:98-164 | the sender's loop followed by the receive loop without workers refuses nothing and delivers every file |
| `EndToEnd.PartialSendAccepted` | client/src/receiver.cpp:251-273 | what is on the channel before the send returns is accepted too |
| `LittleEndian.LoadStore` | common/include/dz/endian.hpp:18-52 | every value that fits is read back |
| `LittleEndian.StoreLoad` | common/include/dz/endian.hpp:18-52 | every byte string is the encoding of the value it loads to |
| `LittleEndian.StoreInto` | common/include/dz/endian.hpp:18-34 | the store writes its bytes and no others |
| `LittleEndian.LoadFrom` | common/include/dz/endian.hpp:36-52 | the load loop computes the value |
| `Payload.BytesRoundTrip` | common/src/frame.cpp:264-279 | a length-prefixed blob is read back, also where its length is prescribed |
| `Payload.EndpointRoundTrip` | common/src/frame.cpp:289-310 | an endpoint is read back in its plain form |
| `Payload.EndpointsRoundTrip` | common/src/frame.cpp:312-324 | an endpoint list is read back with every IPv4-mapped address unwrapped |
| `Payload.TakeEndpoints` | common/src/frame.cpp:312-324 | whatever the input, what is left is a tail of it |
| `Payload.TakeEndpoint` | common/src/frame.cpp:289-310 | whatever the input, what is left is a tail of it |
| `Payload.TakeFixed` | common/src/frame.cpp:272-279 | a field of the prescribed length or a refusal, and a tail of the input |
| `Payload.PayloadWriter.PutInt` | common/src/frame.cpp:165-183 | the little-endian bytes are appended |
| `Payload.PayloadWriter.PutByteString` | common/src/frame.cpp:190-193 | length and bytes are appended |
| `Payload.PayloadWriter.PutOneEndpoint` | common/src/frame.cpp:197-214 | family, port and address are appended |
| `Payload.PayloadWriter.PutEndpointList` | common/src/frame.cpp:216-219 | count and endpoints are appended |
| `Payload.PayloadReader.TryInt` | common/src/frame.cpp:232-256 | the value and the next offset, never past the end |
| `Payload.PayloadReader.TryRaw` | common/src/frame.cpp:258-262 | the bytes and the next offset, never past the end |
| `Payload.PayloadReader.TryBytes` | common/src/frame.cpp:264-270 | the blob and the next offset, never past the end |
| `Payload.PayloadReader.TryFixed` | common/src/frame.cpp:272-279 | the field and the next offset, never past the end |
| `Payload.PayloadReader.TryEndpoint` | common/src/frame.cpp:289-310 | the endpoint and the next offset, never past the end |
| `Payload.PayloadReader.TryEndpoints` | common/src/frame.cpp:312-324 | the list and the next offset, never past the end |
| `Messages.OfferRoundTripIff` | common/src/protocol.cpp:354-423 | an offer is read back exactly when it is legal: names, paths, sizes, modes, chunk size, entry count and total |
| `Messages.ReadOfferLegal` | common/src/protocol.cpp:374-423 | whatever an offer is read from, it is legal |
| `Messages.EncodeOffer` | common/src/protocol.cpp:354-372 | the encoder writes the offer's bytes |
| `Messages.DecodeOffer` | common/src/protocol.cpp:374-423 | the decoder reads what the specification reads and refuses what it refuses |
| `Messages.DecodeEntries` | common/src/protocol.cpp:403-418 | the entry loop and its 64-bit sum |
| `Messages.RosterRoundTripIff` | common/src/protocol.cpp:294-315 | a roster is read back exactly when it is legal |
| `Messages.IntroductionRoundTripIff` | common/src/protocol.cpp:159-200 | an introduction is read back with plain addresses exactly when it is legal, with a group or without |
| `Messages.HelloRoundTripIff` | common/src/protocol.cpp:59-88 | a hello is read back with plain addresses exactly when it is legal |
| `Messages.RequestRoundTripIff` | common/src/protocol.cpp:120-153 | a send request is read back exactly when it is legal, with a group or without |
| `ControlMessages.ServerHelloRoundTripIff` | common/src/protocol.cpp:94-114 | a server hello is read back with plain addresses exactly when every field fits its width |
| `ControlMessages.NameRoundTripIff` | common/src/protocol.cpp:216-228 | a group query, and a group send request of the same layout, is read back exactly when its name is valid |
| `ControlMessages.GroupStatusRoundTripIff` | common/src/protocol.cpp:230-243 | a group status is read back exactly when its count fits |
| `ControlMessages.GroupJoinRoundTripIff` | common/src/protocol.cpp:245-259 | a group join is read back exactly when its name is valid and its verifier has its size |
| `ControlMessages.GroupResultRoundTripIff` | common/src/protocol.cpp:261-278 | a group result is read back exactly when its outcome is one of the six and its fields fit |
| `ControlMessages.DecisionRoundTripIff` | common/src/protocol.cpp:449-465 | a decision is read back exactly when its texts fit |
| `ControlMessages.ReplyRoundTripIff` | common/src/protocol.cpp:321-348 | a probe reply tells the address in plain form exactly when it is one, whatever follows it, and fits its buffer |
| `Names.IsValidUsername` | common/src/protocol.cpp:471-483 | the check accepts exactly the valid names |
| `Names.IsSafeRelativePath` | common/src/protocol.cpp:485-512 | the component loop accepts exactly the safe paths |
| `Names.SafePathStaysBelow` | common/src/protocol.cpp:485-512 | walking a safe path down from a directory never leaves it |
| `ServerPromises.PairingsJoinTwo` | server/src/server.cpp:661-722 | every pairing joins two different live connections, both waiting or both relaying, and exactly they carry its id |
| `ServerPromises.OnePairingEach` | server/src/server.cpp:689-693 | no connection is in two pairings |
| `ServerPromises.IdsNeverReissued` | server/src/session_table.cpp:51-77 | over a whole run an id never comes to stand for another pair and never comes back once dropped |
| `ServerPromises.StaleIdsResolveToNothing` | server/src/server.cpp:811-864 | an id still carried resolves to the carrier's own pairing or to none |
| `ServerPromises.LinksMutual` | server/src/server.cpp:866-914 | relay links are mutual and belong to a relay both parties asked for |
| `ServerPromises.LinksNeverRewired` | server/src/server.cpp:899-900 | a relay link is never rewired while the connection lives |
| `ServerPromises.RelayOpensOnce` | server/src/session_table.cpp:89-109 | a relay opens for a pairing that had not opened before, after both ends asked, and only then are RelayOpen frames sent |
| `ServerPromises.RelayDataOnlyWhenOpen` | server/src/server.cpp:916-952 | relayed bytes go only to the other party of an open relay |
| `ServerPromises.RelayDataOnlyForwarded` | server/src/server.cpp:544-591 | no event other than a RelayData frame makes the server send RelayData, arrivals, disconnections and ticks included |
| `ServerPromises.RecoveryUnreachable` | server/src/server.cpp:918-935 | the branch that recovers the peer from the pairing is never taken |
| `ServerPromises.ClaimsAgree` | server/src/session_table.cpp:12-49 | the claim table holds exactly the names of live connections, each under one connection |
| `ServerPromises.GroupsAgree` | server/src/session_table.cpp:146-236 | groups are non-empty, at most 32, without repeats, and hold exactly those who joined with the creator's verifier |
| `ServerPromises.IntroductionsReachParties` | server/src/server.cpp:689-718 | Incoming goes to the receiver just matched under a new id both carry; Matched goes to the waiting sender of the answering receiver's pairing |
| `ServerPromises.PartnerInformed` | server/src/server.cpp:462-494 | the partner of a closed connection is idle again, or told and closed |
| `ServerPromises.RostersDecode` | server/src/server.cpp:788-809 | every roster sent decodes at the client and names exactly the members of the group accepting now, without the asker |
| `ServerGuarantees.PlayKeeps` | server/src/server.cpp:544-591 | the invariant over claims, pairings, ids, links, relays and groups holds after every sequence of events |
| `ServerGuarantees.HelloKeeps` | server/src/server.cpp:593-659 | saying hello, refreshing or failing to claim keeps the invariant |
| `ServerGuarantees.SendRequestKeeps` | server/src/server.cpp:661-722 | an introduction keeps the invariant |
| `ServerGuarantees.AcceptKeeps` | server/src/server.cpp:811-842 | an answer keeps the invariant |
| `ServerGuarantees.RejectKeeps` | server/src/server.cpp:844-864 | a refusal by either side keeps the invariant |
| `ServerGuarantees.GroupJoinKeeps` | server/src/server.cpp:737-786 | moving, creating, joining or failing to join keeps the invariant |
| `ServerGuarantees.RelayOpenKeeps` | server/src/server.cpp:866-914 | asking for a relay, first or second, keeps the invariant |
| `ServerGuarantees.DisconnectKeeps` | server/src/server.cpp:448-502 | a connection that goes away leaves tables and partner consistent |
| `ServerGuarantees.ExpiryKeeps` | server/src/session_table.cpp:116-134 | dropping old pairings keeps the invariant |
| `ServerGuarantees.NewIdFresh` | server/src/session_table.cpp:60-67 | a new pairing's id has never been issued before |
| `SessionTables.MixInjective` | server/src/session_table.cpp:60-67 | different counter values give different ids, whatever the salt |
| `SessionTables.FreeWithinTwo` | server/src/session_table.cpp:64-67 | the search for an id passes over at most one value |
| `SessionTables.SessionTable.TryClaim` | server/src/session_table.cpp:12-27 | granted, refused or invalid, and the table after it |
| `SessionTables.SessionTable.ReleaseName` | server/src/session_table.cpp:29-41 | only the holder, or anyone once the holder is gone, frees the name |
| `SessionTables.SessionTable.NewPairing` | server/src/session_table.cpp:51-77 | the first id that is neither zero nor in use, and the pairing under it |
| `SessionTables.SessionTable.AskForRelay` | server/src/session_table.cpp:89-109 | true exactly when both have asked and the relay was not open |
| `SessionTables.SessionTable.Expire` | server/src/session_table.cpp:116-134 | exactly the expired pairings are gone and counted |
| `SessionTables.SessionTable.PruneGroup` | server/src/session_table.cpp:146-156 | dead members go, an empty group goes |
| `SessionTables.SessionTable.JoinGroup` | server/src/session_table.cpp:180-214 | which of the six outcomes, and the group after it |
| `SessionTables.SessionTable.LeaveGroup` | server/src/session_table.cpp:216-236 | the member goes, an empty group goes |
| `RendezvousServer.Rendezvous.OnHello` | server/src/server.cpp:593-659 | fields and queued frames after the hello, refresh, claim handler are those of the atomic step the guarantees are about |
| `RendezvousServer.Rendezvous.OnSendRequest` | server/src/server.cpp:661-722 | fields and queued frames after the introduction handler are those of the atomic step the guarantees are about |
| `RendezvousServer.Rendezvous.OnAccept` | server/src/server.cpp:811-842 | fields and queued frames after the acceptance handler are those of the atomic step the guarantees are about |
| `RendezvousServer.Rendezvous.OnReject` | server/src/server.cpp:844-864 | fields and queued frames after the refusal handler are those of the atomic step the guarantees are about |
| `RendezvousServer.Rendezvous.OnGroupQuery` | server/src/server.cpp:724-735 | fields and queued frames after the group query handler are those of the atomic step the guarantees are about |
| `RendezvousServer.Rendezvous.OnGroupJoin` | server/src/server.cpp:737-786 | fields and queued frames after the group join handler are those of the atomic step the guarantees are about |
| `RendezvousServer.Rendezvous.OnGroupSendRequest` | server/src/server.cpp:788-809 | fields and queued frames after the group roster handler are those of the atomic step the guarantees are about |
| `RendezvousServer.Rendezvous.OnRelayOpen` | server/src/server.cpp:866-914 | fields and queued frames after the relay request handler are those of the atomic step the guarantees are about |
| `RendezvousServer.Rendezvous.OnRelayData` | server/src/server.cpp:916-952 | fields and queued frames after the relayed bytes handler are those of the atomic step the guarantees are about |
| `RendezvousServer.Rendezvous.OnRelayClose` | server/src/server.cpp:954-961 | fields and queued frames after the relay close handler are those of the atomic step the guarantees are about |
| `RendezvousServer.Rendezvous.Close` | server/src/server.cpp:448-502 | fields and queued frames after the disconnection handler are those of the atomic step the guarantees are about |
| `RendezvousServer.Rendezvous.ListIdle` | server/src/session_table.cpp:238-258 | the names of the members accepting right now, in joining order, without the asker |
| `RateLimiting.RateBound` | server/src/rate_limiter.cpp:50-85 | in any window of T minutes a key is allowed at most the burst, once more for each time a full table was dropped, plus T minutes of its rate, other keys and evictions included |
| `RateLimiting.ClearsLiftTheBound` | server/src/rate_limiter.cpp:54-62 | dropping a full table gives a key its burst again: a run that allows more than the burst in no time |
| `RateLimiting.BackwardsClockRefills` | server/src/rate_limiter.cpp:69-80 | after a step back of the clock the 64-bit difference wraps and the bucket comes out full |
| `RateLimiting.EvictionInvisible` | server/src/rate_limiter.cpp:87-101 | with a long enough idle time every decision is as if nothing had ever been evicted |
| `RateLimiting.EvictionHarmlessIff` | server/src/rate_limiter.cpp:87-101 | an evicted bucket would have been full, at any readings of the clock, exactly when the idle time suffices to fill it |
| `RateLimiting.DefaultsEvictHarmlessly` | server/src/server.cpp:519-524 | the default limits and the ten minutes of the server suffice |
| `RateLimiting.RateLimiter.Charge` | server/src/rate_limiter.cpp:50-85 | the decision and the buckets after it for any table, key and clock reading |
| `RateLimiting.RateLimiter.EvictIdle` | server/src/rate_limiter.cpp:87-101 | exactly the idle buckets are gone and counted |
| `ProofInputs.StatementsDiffer` | client/src/rendezvous.cpp:34-119 | different names, keys or groups give different bytes, and sender, receiver, personal, group and transcript inputs never coincide |
| `ProofInputs.EncodeInjective` | client/src/rendezvous.cpp:34-45 | a list of fields is recovered from its bytes for field lengths below 2^32 |
| `ProofInputs.InputBuilder.AppendField` | client/src/rendezvous.cpp:34-45 | a field is appended after its length |
| `ProofInputs.SenderProofInput` | client/src/rendezvous.cpp:48-65 | the sender's input, personal or group |
| `ProofInputs.ReceiverProofInput` | client/src/rendezvous.cpp:69-90 | the receiver's input, personal or group |

## Left out

- UDP send batching and its buffers: a queued datagram is a value the network may drop.
- UDP progress: a reader that stops reading can make the writer give up, so only safety is stated.
- The waiting of the UDP engine between turns, `time_until_token_us` and `time_until_rto_us`: they change no protocol state.
- `close_gracefully`: its steps are actions of the state machine, its two-second deadline is not modelled.
- The overflow of round-trip arithmetic above 2^61 microseconds.
- UdpChannel.ReliableUdpChannel.ReceiveBatch: takes the datagrams of a turn as given, because how many one system call returns does not matter to the stream.
- Hole punching and the choice of a transport: not decided by one side alone.
- UdpGuarantees.AcknowledgementsAreTrue: named for one endpoint; `UdpGuarantees.MirrorIsRun` turns the run around.
- UdpGuarantees.ControlsStayInRange: named for one endpoint, as above.
- UdpGuarantees.PacingBound: named for one endpoint, as above.
- UdpPacing.PacingRate: named for one endpoint, as above.
- UdpWrapping.StaleDatagramAccepted: the receiver's state is written down, not reached by a run of 2^32 packets.
- UdpPump.WriteIsSteps: a call that fails is not followed past the failure; the same holds of the two lines below.
- UdpPump.FlushIsSteps: as above.
- UdpPump.ReadIsSteps: as above.
- Wake-ups of condition variables: a thread may step whenever what it waits for holds.
- The teardown of the pool after a send has returned or thrown.
- `BufferPool`, memory mapping, `sendfile`, digests, file modes and `fsync`: calls into the system or easy members.
- Bounds against a sender that does not follow its own plan: `written` counts bytes, not coverage.
- PlainSend.PlainFilesArrive: asks that a chunk fits a frame, as every offer a receiver accepts makes sure.
- PlainSend.TransferPlain: as above.
- Races of session handlers on different shards: handlers are atomic; only pause and resume are interleaved action by action.
- A missed resume: the flush at the end of `service_connection` is not followed by the resume check, so no progress is claimed for a paused source.
- The event loop, the poller, timeouts of idle connections and `update_interest`.
- SessionTables.SessionTable.NewPairing: asks that the 64-bit counter has not run out.
- RendezvousServer.Rendezvous.OnSendRequest: asks that the 64-bit counter has not run out.
- RateLimiting.RateBound: asks that the clock does not run backwards; `RateLimiting.BackwardsClockRefills` says what a step back does.
- The contents of server replies beyond what the guarantees speak of, such as reason texts and reflexive addresses.
- Cryptography, key derivation, the identity store, known peers, the command line, configuration and logging.
