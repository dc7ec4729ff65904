# Fracture, modelled in Dafny

Fracture serves transformer language models. One engine runs a model with a key/value cache; a
coordinator splits the layers over workers, keeps their caches in step, schedules requests and
reacts when workers die, leave or join. This project models that logic and proves what it is for:
however a request is cut into chunks, batched with others, paged, or spread over workers, the
tokens that come out are those of the plain model run on the whole prompt.

The reference is `Transformer.Reference`: all rows through all layers, no cache. Backend kernels
are functions of rows held in the `Ops`, `Layer` and `Model` datatypes; attention of a row sees the
rows up to its own. Everything else is built on that reference and compared with it:

- `Transformer`, `TensorRows`: the cached form, layer by layer, and why it equals the reference.
- `DeviceMemory`, `ContiguousCache`, `ForwardEngine`, `EngineRuns`: tensors as arrays that are
  allocated, written in place and freed; the contiguous cache manager; `forward_node`.
- `PagedCaching`, `PagedEngine`, `BatchedEngine`, `Generation`: block tables, the paged and the
  batched forward passes, and the generation loop.
- `PipelineLayout`, `WorkerProtocol`, `WorkerDevice`, `WorkerBatch`, `WorkerCaches`, `BatchWire`,
  `DistributedPipelines`, `PipelineMeaning`, `Coordination`: layer ranges, the worker's serve loop,
  its forward messages on the engines and its cache messages on the cache managers, the wire format
  of batches, passes over the stages, cache allocation and release.
- `LayerScheduler`, `Registry`, `Rebalance`, `Heartbeats`, `Election`: who runs which layers, and
  what happens when that changes.
- `DistributedScheduling`, `ServingLoop`: the coordinator's loop over a cluster.
- `LloydMax`, `Rotation`: the codebook and the rotation of the quantized cache, over the reals.
- `Core`, `Nodes`, `Sorting`: shared definitions.

Top results, each about every input, run or reachable state:

- `ServingLoop.Task`: over any run of the coordinator loop every request is pending, active or
  answered; when the loop returns all are answered, and no token follows an answer. What was sent
  for a request, failed batches included, is its prompt and tokens in order at positions 0, 1, 2
  and so on. The tokens of every answer are the first of naive generation, and an answer without an
  error is its whole token stream, count and stop reason, through chunked prefill, batching, worker
  messages, caches and failed passes. This holds in every run that starts with nothing unread and
  nobody waiting to leave or to join, and in which no pipeline comes in from elsewhere, no worker of
  the pipeline announces its leave, every allocation can be made, and there are fewer heartbeats to
  come than a worker may still miss: all known before the run. If moreover all devices compute, no
  request is answered with an error on which naive generation does not fail, so that every answer is
  in full what naive generation gives. Without that, it holds as well through refused allocations
  and workers that die, leave or join, if nothing but heartbeat acks is left unread on the streams;
  `Regroup` and `HandleDeaths` say exactly when a change of workers leaves nothing unread. Once the
  channel is closed and heartbeats change nothing, with room to admit and no empty prompt among the
  unanswered, the loop returns within a number of iterations bounded by the work left, even if
  passes fail.
- `Transformer.ReferenceIsTrace`: what the reference computes, operation by operation.
- `PipelineMeaning.TracksPass`, `Coordination.DistributedPipeline.BatchedForward`: a pass over
  workers whose ranges tile the model returns the reference logits of everything each sequence has
  seen, and their caches put together are the cache of one node with all layers.
- `WorkerDevice.HandleForward`, `WorkerBatch.HandleBatched`, `WorkerCaches.Caches.HandleRun`: the
  worker's messages, run in place on engines, cache managers and device, answer what the protocol
  model says and leave the caches it says, when they fail as well.
- `Generation.Generate`: cached, paged generation returns exactly what the cacheless loop returns,
  and `Generation.NaiveIff` says what that is without a loop.
- `Election.SafeIff` and `VictoryFollowed`: which rounds elect only the best agent, and who follows.
- `LayerScheduler.MakeSchedule`: when each mode accepts, and what an accepted schedule gives.
- `LloydMax.ComputeCodebook`, `Rotation.Orthogonalize` with `FactorsUnique`: the codebook is the
  solver's, and the rotation the orthonormal factor of its matrix.

Where the code does not keep a promise, one member gives an input and another the exact condition:

- a worker that announces its leave on the stream of its replies: `Coordination.LeaveStale` for a
  pass whose logits the next one is given, `PipelineMeaning.StagesKeep` and `TracksPass` for when;
- rollback of allocations: `Coordination.RollbackMisses` and `LeaveMisses`, `SomeOrderLeaves` and
  `StoppedShort`;
- reading replies after a reconfiguration: `Rebalance.AckReadInstead` and `LeaveReadInstead`,
  `QuietIffFirst` and `ForcedRebalance`;
- serving on when workers leave or join: the loop sends the next heartbeat before it reconfigures
  anybody, and a worker that has answered it does not serve. `ServingLoop.LeaveAndAnswer`, `Regroup`
  with `SeeWorkers`;
- nothing unread after a refused allocation: `Coordination.SurelyDrained`;
- crediting heartbeats: `Heartbeats.BusyCountsAsDead`, `CreditedIff`;
- one leader: `Election.TwoLeaders`, `SafeIff`;
- manual ranges: `LayerScheduler.ManualSwapped`, `ManualAsAsked` and `ManualIffConsecutive`;
- pruning: `LayerScheduler.PrunedTooFar` and `AutoRefuses`, `ScheduleAuto` with `PrunedAlmost`;
- schedules with idle nodes: `LayerScheduler.AutoLeavesIdle`, `AutoAllServe`.

The code is followed where its documentation says something else:

- Fracture's README.md:403 speaks of decode priority; the loop puts prefills first.
- The comment on `alloc_cache` (crates/fracture-coordinator/src/pipeline.rs:154-158) promises that
  a failed allocation is rolled back everywhere. Only workers whose acks were read are rolled back,
  none if a node is not registered, and unread replies stay in the streams.
- The comment in the loop (bins/fracture-coordinator-cuda/src/distributed_loop.rs:134-136) gives
  workers the full heartbeat interval to respond. Passes and allocations read from the same stream
  and throw acks away.
- Fracture's README.md:139-140 presents batched passes as equal to sequential ones; this holds for non-empty
  sequences, and an empty one is given its neighbour's logits.

Modelling choices: integers are unbounded, numbers are reals, text is not modelled. The clock, the
network's timing, the order in which hash maps are walked and the outcome of device operations are
parameters or arbitrary choices. A locked section is one step; a connection is a sequence of
replies in order. A sampler is a function of the logits that may fail. Lemmas carry
`{:induction false}`, so each is proved by the steps written out.

## Model

| member | source | states |
|---|---|---|
| `Transformer.LayerCausal` | crates/fracture-core/src/backend.rs:49-71 | a row of a layer does not depend on later rows |
| `Transformer.ReferenceIsTrace` | crates/fracture-engine/src/engine.rs:286-470 | the reference written out, for any number of layers: rows that are normalized, projected, rotated by their positions, attended to up to their own, and added to twice around the gated feed-forward block lead to its logits |
| `Transformer.HasTrace` | crates/fracture-engine/src/engine.rs:286-470 | every sequence of ids has such rows |
| `Transformer.LayerIncremental` | crates/fracture-engine/src/engine.rs:286-392 | one cached layer gives the reference's new rows and extends keys and values as the reference says |
| `Transformer.NodeIncremental` | crates/fracture-engine/src/engine.rs:186-506 | if caches are the reference's for the rows seen, a cached call returns the reference's rows and leaves the reference's caches |
| `Transformer.ReferenceCausal` | crates/fracture-engine/src/engine.rs:186-506 | the reference on a prefix is a prefix of the reference |
| `Transformer.CachesGrow` | crates/fracture-engine/src/engine.rs:186-506 | every layer's cache grows by exactly the new rows |
| `Transformer.ChunkInvariance` | crates/fracture-engine/src/engine.rs:186-506 | any cut into consecutive calls gives the rows and caches of one call on the whole |
| `Transformer.StepIsReference` | crates/fracture-engine/src/engine.rs:186-506 | a step on further ids gives the reference logits of everything so far |
| `Transformer.NodeSplit` | crates/fracture-engine/src/node.rs:7-52 | two nodes with consecutive layers do what one with both does, rows and caches |
| `TensorRows.LayerFromStored` | crates/fracture-engine/src/engine.rs:286-392 | computing over whole cache tensors, whatever lies behind the filled part, is the cached layer |
| `Nodes.NewNodeConfig` | crates/fracture-engine/src/node.rs:18-32 | accepts exactly non-empty ranges within the model, and keeps them |
| `Nodes.PositionsInRange` | crates/fracture-engine/src/engine.rs:238-245 | true iff every position is below the limit |
| `DeviceMemory.Device.Alloc` | crates/fracture-core/src/backend.rs:11-15 | a new tensor no one else has, or out of memory and nothing changes |
| `DeviceMemory.Device.Free` | crates/fracture-core/src/backend.rs:14-15 | succeeds iff the tensor is live, and takes only it |
| `DeviceMemory.CopyRows` | crates/fracture-core/src/backend.rs:109-117 | replaces exactly the rows asked for, or fails and changes nothing |
| `ContiguousCache.KvCacheManager.Alloc` | crates/fracture-engine/src/kv_cache.rs:49-76 | a handle never given out before with new tensors; on failure no sequence is added and the handle is used up |
| `ContiguousCache.KvCacheManager.SetSeqLen` | crates/fracture-engine/src/kv_cache.rs:87-101 | accepted iff the handle is known and the length fits; other sequences keep theirs |
| `ContiguousCache.KvCacheManager.LayerTensors` | crates/fracture-engine/src/kv_cache.rs:104-131 | the key and value tensor of a layer iff handle and layer exist |
| `ContiguousCache.KvCacheManager.Free` | crates/fracture-engine/src/kv_cache.rs:134-145 | gives back exactly the sequence's tensors |
| `ContiguousCache.RunCacheOps` | crates/fracture-engine/src/kv_cache.rs:49-145 | over any run of alloc and free, tensors of live handles are live and pairwise disjoint, and a freed handle is never valid again |
| `ForwardEngine.LayerStep` | crates/fracture-engine/src/engine.rs:286-392 | a layer on tensors in place is the cached layer; without room the cached rows stay |
| `ForwardEngine.RunLayers` | crates/fracture-engine/src/engine.rs:269-424 | the layer loop is the cached form; fails iff there is no room or too few cache layers |
| `ForwardEngine.TailLogits` | crates/fracture-engine/src/engine.rs:436-470 | logits of the last row, with the one-row alias of the norm buffer not freed here |
| `ForwardEngine.NodeBody` | crates/fracture-engine/src/engine.rs:247-506 | scratch tensors are each freed once on success |
| `ForwardEngine.ForwardNode` | crates/fracture-engine/src/engine.rs:186-506 | accepted iff role, positions, handle, room and tensors allow; then output and cached rows are the cached form's, and the live tensors are as before plus a head's returned hidden state |
| `EngineRuns.RunIsRunChunks` | crates/fracture-engine/src/engine.rs:186-506 | a run of accepted calls is the cached form run over the chunks |
| `EngineRuns.AnyCutAgrees` | crates/fracture-engine/src/engine.rs:186-506 | from an empty cache any run of calls gives the reference's rows and caches, however it is cut |
| `EngineRuns.CallIsReference` | crates/fracture-engine/src/engine.rs:186-506 | a call on further ids returns the reference logits of everything so far |
| `PagedCaching.PagedKvCacheManager.constructor` | crates/fracture-engine/src/paged_kv_cache.rs:54-131 | every block starts free and no sequence exists |
| `PagedCaching.PagedKvCacheManager.Alloc` | crates/fracture-engine/src/paged_kv_cache.rs:231-250 | a new empty sequence with one block of its own, or out of memory; others keep their rows |
| `PagedCaching.PagedKvCacheManager.Grow` | crates/fracture-engine/src/paged_kv_cache.rs:267-288 | takes the blocks needed and moves the length; when the pool runs out the blocks taken stay in the table and the length stays |
| `PagedCaching.WriteRows` | crates/fracture-engine/src/paged_kv_cache.rs:290-311 | read through the table, exactly the positions written have changed |
| `PagedCaching.PagedKvCacheManager.AppendKv` | crates/fracture-engine/src/paged_kv_cache.rs:253-314 | the layer holds its old rows then the new ones; every other layer and sequence is as before; the error kinds and block accounting |
| `PagedCaching.PagedKvCacheManager.DispatchAttention` | crates/fracture-engine/src/batched.rs:78-110 | attention through the block table is causal attention over the rows cached |
| `PagedCaching.PagedKvCacheManager.Free` | crates/fracture-engine/src/paged_kv_cache.rs:341-350 | the sequence's blocks and only those are free again |
| `PagedEngine.PagedLayers` | crates/fracture-engine/src/engine.rs:619-707 | the paged layer loop is the cached form |
| `PagedEngine.ForwardNodePaged` | crates/fracture-engine/src/engine.rs:539-773 | accepted iff role, positions, handle and free blocks allow, with the error kind otherwise; outcome is the cached form's |
| `PagedEngine.ForwardPaged` | crates/fracture-engine/src/engine.rs:511-536 | the whole model on one sequence, ids to logits, as the cached form |
| `BatchedEngine.BuildBatch` | crates/fracture-engine/src/batched.rs:248-268 | ids and positions concatenated, with bounds that cut them back into each sequence's own |
| `BatchedEngine.AppendAll` | crates/fracture-engine/src/batched.rs:322-351 | each sequence's new rows go to its own blocks; fails iff the pool lacks the blocks of the whole batch |
| `BatchedEngine.AttendAll` | crates/fracture-engine/src/batched.rs:352-383 | each piece of the attention buffer is that sequence's own attention |
| `BatchedEngine.BatchedLayers` | crates/fracture-engine/src/batched.rs:289-403 | every sequence goes through the layers as if alone |
| `BatchedEngine.BatchedForward` | crates/fracture-engine/src/batched.rs:230-452 | every non-empty sequence gets the logits and the cache it would alone; an empty one repeats its neighbour's logits; accepted iff known and the blocks suffice, and which error otherwise |
| `BatchedEngine.OutcomeUnique` | crates/fracture-engine/src/batched.rs:230-452 | without empty sequences, logits and caches are determined by what was cached before |
| `BatchedEngine.SequentialForward` | crates/fracture-engine/src/engine.rs:511-536 | one paged call per sequence has the same outcome as the batch |
| `BatchedEngine.BatchedForwardNode` | crates/fracture-engine/src/batched.rs:464-728 | a node's layers over a batch, each sequence as if alone; a tail flattens the logits in order; which error otherwise |
| `Generation.NaiveBounded` | crates/fracture-generate/src/generation.rs:99-164 | never more than max(1, max_tokens) tokens |
| `Generation.NaiveIff` | crates/fracture-generate/src/generation.rs:99-164 | the cacheless loop without its loop: its result is r iff some tokens, each sampled on the reference logits of all before it and none a stop token, end with r, by a stop token, the limit, the flag or an error |
| `Generation.Advance` | crates/fracture-generate/src/generation.rs:116-149 | further ids give the reference logits of everything so far as long as they fit |
| `Generation.GenerateInner` | crates/fracture-generate/src/generation.rs:99-164 | tokens and stop reason equal those of a loop that reruns everything from nothing; the tokens sent are those sampled, when it fails as well |
| `Generation.Generate` | crates/fracture-generate/src/generation.rs:67-97 | the same with errors and cancellation and 16 rows for each free block; afterwards all blocks are free again and other sequences keep their rows |
| `Generation.FreeDetermined` | crates/fracture-engine/src/paged_kv_cache.rs:134-148 | which blocks are free is determined by the tables |
| `PipelineLayout.CheckAssignments` | crates/fracture-coordinator/src/pipeline.rs:118-152 | accepts exactly non-empty ranges that are consecutive from layer 0 |
| `PipelineLayout.EachLayerOnce` | crates/fracture-coordinator/src/pipeline.rs:118-152 | accepted ranges hold every layer exactly once |
| `PipelineLayout.RolesAgree` | crates/fracture-engine/src/node.rs:35-42 | head and tail in a worker's own range are first and last in the pipeline |
| `PipelineLayout.ChainIsWhole` | crates/fracture-coordinator/src/pipeline.rs:323-428 | the stages one after the other are one node with all layers, and their caches its cache |
| `WorkerProtocol.ServeKeeps` | bins/fracture-worker-cuda/src/main.rs:663-846 | after every message of the protocol model, whatever the device decides, the contiguous and the paged map have the same keys; `WorkerCaches` proves the managers agree with it |
| `WorkerProtocol.ServeHolds` | bins/fracture-worker-cuda/src/main.rs:663-846 | no message but an allocation of it makes a worker hold a sequence, and none changes its size of activations |
| `WorkerProtocol.AllocThenFree` | bins/fracture-worker-cuda/src/main.rs:663-749 | a new sequence with room is acknowledged and held, empty, in both maps; asking again is refused; freeing it undoes it |
| `WorkerProtocol.NoRoomRefused` | bins/fracture-worker-cuda/src/main.rs:663-726 | without room for both caches nothing is held |
| `WorkerProtocol.NotHeldRefused` | bins/fracture-worker-cuda/src/main.rs:728-749 | a sequence that is not held is refused by free, forward and batch, and nothing changes |
| `WorkerProtocol.ReconfiguredForgets` | bins/fracture-worker-cuda/src/main.rs:751-810 | nothing is held afterwards; ready iff the range is one of the model's layers, silent otherwise |
| `WorkerProtocol.BeatAndShutdown` | bins/fracture-worker-cuda/src/main.rs:577-824 | a heartbeat is echoed; a shutdown leaves nothing held |
| `WorkerProtocol.ForwardAnswered` | bins/fracture-worker-cuda/src/main.rs:1281-1346 | answered with logits or rows of the right kind iff the input fits the node's place, has a row for each position and the device computes; the sequence then holds as many rows more, and no other is touched |
| `WorkerProtocol.BatchAnswered` | bins/fracture-worker-cuda/src/main.rs:1350-1445 | silent iff the ids are fewer than the tokens; otherwise answered with logits or rows iff the batch fits and the device computes |
| `WorkerCaches.Caches.HandleAlloc` | bins/fracture-worker-cuda/src/main.rs:663-726 | reply and caches are the serve loop's, with room for two tensors per layer and a free block as what device and pool decide; a refused paged cache gives the contiguous one back and restores the live tensors; a device that runs out is left full of tensors of no sequence |
| `WorkerCaches.Caches.HandleFree` | bins/fracture-worker-cuda/src/main.rs:728-749 | reply and caches are the serve loop's; exactly the tensors and blocks of the sequence are given back |
| `WorkerCaches.Caches.HandleReconfigure` | bins/fracture-worker-cuda/src/main.rs:751-810 | every sequence's tensors are given back, then both managers start empty for the new layers; a refused range stops the worker with nothing held |
| `WorkerCaches.Caches.HandleShutdown` | bins/fracture-worker-cuda/src/main.rs:812-824 | every sequence's tensors are given back and every block is free |
| `WorkerCaches.Caches.HandleRun` | bins/fracture-worker-cuda/src/main.rs:663-824 | any run of these messages on the managers gives the replies and ends with the caches of the serve loop, until one stops the worker |
| `WorkerCaches.MatchesAdd` | bins/fracture-worker-cuda/src/main.rs:667-677 | a new sequence with a new entry keeps handles and entries in one-to-one correspondence |
| `WorkerDevice.HandleForward` | bins/fracture-worker-cuda/src/main.rs:1281-1346 | succeeds iff the sequence is known, the input fits the node, the positions are in range and cache and tensors have room; the reply, an error included, is the serve loop's, and on success so is the cache; tensors are conserved except one uploaded tensor per message that a tail keeps |
| `WorkerDevice.RunForward` | bins/fracture-worker-cuda/src/main.rs:1318-1346 | the engine's call succeeds iff it is accepted and the tensors fit; it answers what the serve loop answers, and only the activations sent out are freed |
| `WorkerBatch.CutsWhole` | crates/fracture-engine/src/batched.rs:248-268 | the pieces of a batch buffer put together are the buffer |
| `WorkerBatch.RanSteps` | crates/fracture-engine/src/batched.rs:464-728 | what the engine has run is sequence by sequence the serve loop's steps |
| `WorkerBatch.HandleBatched` | bins/fracture-worker-cuda/src/main.rs:1350-1445 | the reply is the serve loop's in every case, errors and ids running out included; after it, failed or not, cache and protocol state agree, given what the failed pass left behind |
| `WorkerBatch.FailedHolds` | bins/fracture-worker-cuda/src/main.rs:1350-1445 | a failed batch changes at most the caches of its own sequences, and none if it was not started |
| `BatchWire.SplitUndoesConcat` | bins/fracture-worker-cuda/src/main.rs:1375-1386 | the worker's split gives every sequence back its own ids |
| `BatchWire.SplitExact` | bins/fracture-worker-cuda/src/main.rs:1375-1386 | the split exists iff there are enough ids, and loses and repeats none |
| `BatchWire.DistributeIds` | bins/fracture-worker-cuda/src/main.rs:1375-1386 | the loop with a running offset is that split |
| `BatchWire.StepsAreOwn` | crates/fracture-engine/src/batched.rs:464-728 | rows cut by running offset are each sequence's own step |
| `BatchWire.FlatIsConcat` | bins/fracture-worker-cuda/src/main.rs:1414-1427 | the flat list is each sequence's last-row logits in order |
| `BatchWire.SplitUndoesFlatten` | crates/fracture-coordinator/src/pipeline.rs:55-74 | the coordinator's even split gives every sequence back its own logits |
| `DistributedPipelines.AcksUnseen` | crates/fracture-coordinator/src/pipeline.rs:23-49 | heartbeat acks put anywhere into a reply stream are not seen |
| `DistributedPipelines.Cluster.Recv` | crates/fracture-coordinator/src/pipeline.rs:23-49 | the next reply that is not a heartbeat ack, and nothing else is lost |
| `DistributedPipelines.JudgeIff` | crates/fracture-coordinator/src/pipeline.rs:365-424 | a pass goes on with the rows of a stage before the last and ends with the logits of the last, of the right kind and width; which other replies are errors of the protocol |
| `DistributedPipelines.RunStages` | crates/fracture-coordinator/src/pipeline.rs:323-428 | result and streams depend only on the streams without acks |
| `PipelineMeaning.StagesChain` | crates/fracture-coordinator/src/pipeline.rs:323-538 | a pass succeeds iff every stage computes and none announces its leave, is a protocol error iff it reaches one that does, and takes every sequence through the chain of stages |
| `PipelineMeaning.PassIsWhole` | crates/fracture-coordinator/src/pipeline.rs:323-538 | a pass that every stage answers is a pass of one node with all layers; the other sequences' caches are untouched |
| `PipelineMeaning.TracksPass` | crates/fracture-coordinator/src/pipeline.rs:323-538 | over runs of passes the logits are the reference logits of everything seen and the caches keep up, iff every stage computes and none announces its leave |
| `PipelineMeaning.StagesKeep` | crates/fracture-coordinator/src/pipeline.rs:323-538 | whatever comes of a pass it touches no sequence outside the call; it leaves nothing unread iff it has reached no stage that announces its leave |
| `PipelineMeaning.TracksOutside` | crates/fracture-coordinator/src/pipeline.rs:323-538 | after any pass the sequences outside the call are tracked as before iff it has reached no stage that announces its leave; all are still held by every stage |
| `Coordination.SendAll` | crates/fracture-coordinator/src/pipeline.rs:204-217 | every node before the first unregistered one handles the message once; Ok iff all are registered |
| `Coordination.CollectAcks` | crates/fracture-coordinator/src/pipeline.rs:219-256 | for any streams and any order of arrival: Ok iff every worker's next reply is an ack; the acks before the first other reply are returned; no worker changes |
| `Coordination.AllocSent` | crates/fracture-coordinator/src/pipeline.rs:204-217 | after the sends a node's next reply is an ack iff it allocated and does not announce its leave |
| `Coordination.TracksAlloc` | crates/fracture-coordinator/src/pipeline.rs:159-256 | an allocated sequence is tracked from nothing, the others as before |
| `Coordination.TracksFree` | crates/fracture-coordinator/src/pipeline.rs:261-282 | a freed sequence is tracked no more; the others are tracked as before iff nobody told announces its leave |
| `Coordination.LeftBehind` | crates/fracture-coordinator/src/pipeline.rs:179-192 | after a failed allocation a worker holds the sequence iff it is in `LeftHolding`: told before the first unregistered node, able to allocate, and its ack not read before the first other reply |
| `Coordination.SomeOrderLeaves` | crates/fracture-coordinator/src/pipeline.rs:179-256 | some order of arrival leaves a worker holding the sequence iff one worker can allocate and one, perhaps the same, cannot or announces its leave |
| `Coordination.RollbackMisses` | crates/fracture-coordinator/src/pipeline.rs:179-256 | two workers: one keeps the sequence when the other's refusal comes first, and when the other is not registered |
| `Coordination.LeaveMisses` | crates/fracture-coordinator/src/pipeline.rs:219-256 | one worker that can allocate and announces its leave first keeps the sequence, its ack unread, though nobody refuses |
| `Coordination.RolledBack` | crates/fracture-coordinator/src/pipeline.rs:179-192 | not acked by some worker: exactly the workers whose acks came before are taken back |
| `Coordination.StoppedShort` | crates/fracture-coordinator/src/pipeline.rs:204-217 | a node is not registered: exactly the allocating workers told before it keep the sequence, and no reply is read |
| `Coordination.TracksFailed` | crates/fracture-coordinator/src/pipeline.rs:159-256 | after a failed allocation the other sequences are served on iff nothing is left unread |
| `Coordination.StaleLogits` | crates/fracture-coordinator/src/pipeline.rs:23-49 | behind one unread ack a pass fails and the next one is given the logits of the pass before it |
| `Coordination.LeaveStale` | bins/fracture-worker-cuda/src/main.rs:616-628 | the only worker of a quiet pipeline announces its leave before it answers a pass: the pass fails, its logits stay unread, and the next pass is given them |
| `Coordination.TryAlloc` | crates/fracture-coordinator/src/pipeline.rs:159-256 | the outcome of an allocation for any order of arrival, any dropped tasks and any leaves announced: who holds the sequence and of whom something is unread |
| `Coordination.SurelyDrained` | crates/fracture-coordinator/src/pipeline.rs:179-256 | a refused allocation is sure to leave nothing unread, whatever the order of arrival and the dropped tasks, iff it was made of a single worker that announces no leave |
| `Coordination.DistributedPipeline.AllocCache` | crates/fracture-coordinator/src/pipeline.rs:159-256 | on streams without leftovers it succeeds iff the sequence is new and every worker can allocate and announces no leave, and then every worker holds it, empty, in both maps; when it fails a serving pipeline goes on serving iff nothing is left unread, which is so for a known sequence and otherwise iff every worker is in `DrainedBy`; no worker holds anything more |
| `Coordination.DistributedPipeline.FreeCache` | crates/fracture-coordinator/src/pipeline.rs:261-282 | succeeds iff allocated and all workers are registered; a serving pipeline goes on serving the others iff no worker announces its leave |
| `Coordination.DistributedPipeline.FreeBestEffort` | crates/fracture-coordinator/src/pipeline.rs:287-299 | forgets the sequence and frees it on the ready workers and on no other; a serving pipeline on which all hold it goes on serving the others iff none of those announces its leave |
| `Coordination.DistributedPipeline.AbortAll` | crates/fracture-coordinator/src/pipeline.rs:303-317 | returns and forgets all sequences and frees them on the ready workers only; a stream is empty afterwards iff it was and the worker, if told, had nothing to say |
| `Coordination.DistributedPipeline.Forward` | crates/fracture-coordinator/src/pipeline.rs:323-428 | refused without a cache; on a serving pipeline the reference logits iff every stage computes and none announces its leave; the other sequences are served on iff the pass reaches no stage that does |
| `Coordination.DistributedPipeline.BatchedForward` | crates/fracture-coordinator/src/pipeline.rs:434-538 | refused if any sequence has no cache; on a serving pipeline each sequence gets its own reference logits iff every stage computes and none announces its leave; the sequences outside the batch are served on iff the pass reaches no stage that does |
| `Coordination.NewPipeline` | crates/fracture-coordinator/src/pipeline.rs:118-152 | succeeds iff the ranges are accepted; then they tile the layers and nothing is allocated |
| `LayerScheduler.Redistribute` | crates/fracture-coordinator/src/scheduler.rs:506-572 | with counts within their ceilings, Ok iff the ceilings hold all layers; a node that gained leaves no faster one with room, a node that lost leaves no slower one with layers |
| `LayerScheduler.BuildResult` | crates/fracture-coordinator/src/scheduler.rs:575-643 | ranges from a running start, expected times by layer count and speed; the last of the slowest nodes is the bottleneck, and the pipeline takes its time and a hop between each two nodes |
| `LayerScheduler.LaidIsSound` | crates/fracture-coordinator/src/scheduler.rs:575-612 | counts within ceilings that add up give consecutive ranges that fit the memory |
| `LayerScheduler.PipelineTakes` | crates/fracture-coordinator/src/pipeline.rs:134-139 | the pipeline accepts a schedule iff no node has zero layers |
| `LayerScheduler.PipelineTakesCounts` | crates/fracture-coordinator/src/pipeline.rs:134-139 | the pipeline accepts what is laid out iff every count is positive |
| `LayerScheduler.AutoAllServe` | crates/fracture-coordinator/src/scheduler.rs:292-313 | the pipeline accepts what Auto lays out iff the layers wanted reach every node: a condition on the nodes' speed and memory and the number of layers |
| `LayerScheduler.BalancedAllServe` | crates/fracture-coordinator/src/scheduler.rs:506-572 | redistribution leaves every node layers iff, when too many are wanted, all want some and less is taken back than the first to be drained wants, and when not, layers are left for each node that wants none once all faster ones are full |
| `LayerScheduler.AutoLeavesIdle` | crates/fracture-coordinator/src/scheduler.rs:292-313 | two nodes and one layer: Auto gives one node nothing, and the pipeline refuses the schedule |
| `LayerScheduler.EqualCounts` | crates/fracture-coordinator/src/scheduler.rs:319-338 | shares differ by at most one, add up, and the larger go to more memory |
| `LayerScheduler.EvenAllServe` | crates/fracture-coordinator/src/scheduler.rs:315-357 | no node is without layers iff there are at least as many layers as nodes |
| `LayerScheduler.CheckCoverage` | crates/fracture-coordinator/src/scheduler.rs:381-409 | the bitmap accepts exactly the lists that cover every layer once, and then lengths add up |
| `LayerScheduler.ScheduleManual` | crates/fracture-coordinator/src/scheduler.rs:359-443 | accepts exactly the lists that cover, name known nodes and fit, gives each node as many layers as asked for, and times the result |
| `LayerScheduler.ManualAsAsked` | crates/fracture-coordinator/src/scheduler.rs:411-442 | nodes get the non-empty ranges asked for iff listed in ascending order |
| `LayerScheduler.ManualIffConsecutive` | crates/fracture-coordinator/src/scheduler.rs:411-442 | for any list, empty ranges included, nodes get the ranges asked for iff listed consecutively from 0 |
| `LayerScheduler.ManualSwapped` | crates/fracture-coordinator/src/scheduler.rs:411-442 | two nodes listed in descending order get each other's layers |
| `LayerScheduler.EstimateLatency` | crates/fracture-coordinator/src/scheduler.rs:448-475 | no node's estimated time plus the hops exceeds it, and some node's attains it; 0 without nodes |
| `LayerScheduler.WithinBounds` | crates/fracture-coordinator/src/scheduler.rs:49-75 | candidates are plausible iff all their times are above 0 and at most 500 ms |
| `LayerScheduler.SpeedsAdd` | crates/fracture-coordinator/src/scheduler.rs:455 | speeds are reciprocals of the time per layer and add up |
| `LayerScheduler.IdealIsNearest` | crates/fracture-coordinator/src/scheduler.rs:458-460 | the ideal count is the whole number nearest to the node's part of the layers by speed |
| `LayerScheduler.EqualNodesStay` | crates/fracture-coordinator/src/scheduler.rs:236-290 | two equal nodes over 32 layers: 18 ms together, 32 alone, both kept |
| `LayerScheduler.SlowNodeGoes` | crates/fracture-coordinator/src/scheduler.rs:236-290 | a node ten times slower with dear hops: 34 ms with it, 32 without, dropped |
| `LayerScheduler.SizesOfLarge` | crates/fracture-coordinator/src/scheduler.rs:156-184 | bytes of a layer, of its cache and of head and tail for a model of eight billion weights |
| `LayerScheduler.CapacityFits` | crates/fracture-coordinator/src/scheduler.rs:478-493 | if every layer has a place, `model_fits` holds |
| `LayerScheduler.FitsAlmost` | crates/fracture-coordinator/src/scheduler.rs:478-493 | if `model_fits` holds, all but at most one layer per node beyond the first have a place |
| `LayerScheduler.Prune` | crates/fracture-coordinator/src/scheduler.rs:236-290 | keeps exactly `Pruned`; at least one node, the candidates partitioned by speed, a falling chain of latencies |
| `LayerScheduler.ScheduleAuto` | crates/fracture-coordinator/src/scheduler.rs:225-313 | works on `Pruned` and is Ok iff those nodes have a place for every layer |
| `LayerScheduler.ScheduleEqual` | crates/fracture-coordinator/src/scheduler.rs:315-357 | Ok iff every node has room for its even share |
| `LayerScheduler.MakeSchedule` | crates/fracture-coordinator/src/scheduler.rs:199-223 | in all modes an accepted schedule has only candidates between 0 and 500 ms, partitions the layers in order, fits each node's memory and is timed by its bottleneck; Auto, Manual and EqualSplit accept exactly under the conditions of their rows and give the counts of their rows |
| `LayerScheduler.PrunedTooFar` | crates/fracture-coordinator/src/scheduler.rs:236-290 | three candidates with a place for the one layer of which pruning keeps two without |
| `LayerScheduler.AutoRefuses` | crates/fracture-coordinator/src/scheduler.rs:225-313 | on those candidates Auto returns an error |
| `LayerScheduler.PrunedAlmost` | crates/fracture-coordinator/src/scheduler.rs:236-290 | if the candidates have a place for every layer, the nodes kept lack one for at most one layer per node but the first |
| `LayerScheduler.PrunedFits` | crates/fracture-coordinator/src/scheduler.rs:236-290 | pruning drops nothing, or what it keeps passes the memory test |
| `Registry.PeerRegistry.Register` | crates/fracture-coordinator/src/registry.rs:75-106 | refused iff the id is taken by a worker that is not dead |
| `Registry.PeerRegistry.Assign` | crates/fracture-coordinator/src/registry.rs:123-135 | Ok iff known and not dead; then ready with the range |
| `Registry.PeerRegistry.MarkDead` | crates/fracture-coordinator/src/registry.rs:145-150 | the worker, if known, is dead and keeps everything else; others are as before |
| `Registry.PeerRegistry.MarkDraining` | crates/fracture-coordinator/src/registry.rs:153-158 | only a ready worker drains |
| `Registry.PeerRegistry.RecordHeartbeat` | crates/fracture-coordinator/src/registry.rs:177-183 | only the free blocks of that worker change |
| `Registry.PeerRegistry.MinFreeBlocks` | crates/fracture-coordinator/src/registry.rs:190-197 | the fewest free blocks among serving workers, 0 if none serves |
| `Registry.PeerRegistry.AllCapabilities` | crates/fracture-coordinator/src/registry.rs:200-206 | exactly the workers that are not dead, each once |
| `Registry.PeerRegistry.PipelineOrder` | crates/fracture-coordinator/src/registry.rs:210-221 | the serving workers, each once, by first layer |
| `Rebalance.AssignAll` | crates/fracture-coordinator/src/rebalance.rs:79-111 | every worker is assigned and told once; unreachable ones are dead |
| `Rebalance.Agreement` | crates/fracture-coordinator/src/rebalance.rs:35-157 | registry order equals the new pipeline's iff all its workers are reachable and no worker left out was serving |
| `Rebalance.QuietIffFirst` | crates/fracture-coordinator/src/rebalance.rs:113-141 | a reconfigured worker has no unread reply iff nothing was unread, no heartbeat was answered first and no leave announced |
| `Rebalance.AckReadInstead` | crates/fracture-coordinator/src/rebalance.rs:113-141 | one heartbeat answered first: its ack is read and `WorkerReady` is left unread |
| `Rebalance.LeaveReadInstead` | crates/fracture-coordinator/src/rebalance.rs:113-141 | a leave announced first: the announcement is read and lost, and `WorkerReady` is left unread |
| `Rebalance.RebalancedServes` | crates/fracture-coordinator/src/rebalance.rs:79-157 | the new pipeline is laid out over its workers, and serves from scratch iff they had nothing unread, acks and leaves included |
| `Rebalance.ForcedRebalance` | crates/fracture-coordinator/src/rebalance.rs:35-157 | the old pipeline ends empty; Ok iff the scheduler accepts what the workers neither dead nor skipped can do, with hops of 2 ms, and leaves none of its ranges empty; an Ok one tiles the layers over workers neither dead nor skipped, in EqualSplit mode all of them, with the registry's order as above; it serves from scratch iff its workers' streams were empty, they freed the aborted sequences without a word, and nothing came before their answer; skipped workers that are not ready are left alone |
| `Heartbeats.HeartbeatTracker.ProcessAck` | crates/fracture-coordinator/src/heartbeat.rs:71-102 | accepted iff the worker is known, not dead and echoes the pending nonce; then its count is 0 |
| `Heartbeats.HeartbeatTracker.IncrementMissed` | crates/fracture-coordinator/src/heartbeat.rs:106-116 | one more each time a worker is listed; reported iff the limit is reached |
| `Heartbeats.HeartbeatTracker.MissedCount` | crates/fracture-coordinator/src/heartbeat.rs:49-51 | the count, 0 for a worker never counted |
| `Heartbeats.SilenceCounts` | crates/fracture-coordinator/src/heartbeat.rs:106-116 | over any run a silent worker's count grows by the times it is listed |
| `Heartbeats.AckedStaysLow` | crates/fracture-coordinator/src/heartbeat.rs:71-116 | acked in every round, the count never passes what one round adds |
| `Heartbeats.HeartbeatRound` | bins/fracture-coordinator-cuda/src/distributed_loop.rs:138-175 | one message is taken from every serving worker's stream; a worker is credited iff it is the ack of the pending heartbeat and drains if it is a leave; every worker still serving counts one more, and those at the limit are reported; registry, counts and streams exactly |
| `Heartbeats.CreditedIff` | bins/fracture-coordinator-cuda/src/distributed_loop.rs:634-674 | an answered heartbeat is credited by the next poll iff no older ack is in front of it and no reply has been read from the stream since |
| `Heartbeats.BusyCountsAsDead` | bins/fracture-coordinator-cuda/src/distributed_loop.rs:134-175 | a worker that answers every heartbeat and has one reply read between rounds counts as missing all of them |
| `Heartbeats.SendHeartbeats` | bins/fracture-coordinator-cuda/src/distributed_loop.rs:604-622 | a fresh nonce is pending, and only acks are added to the streams |
| `Election.RankIsStrictOrder` | crates/fracture-election/src/state_machine.rs:82-121 | of two agents exactly one outranks the other, transitively |
| `Election.TermTracker.IsAcceptable` | crates/fracture-election/src/term.rs:43-45 | true iff the term received is not older |
| `Election.TermTracker.UpdateIfNewer` | crates/fracture-election/src/term.rs:53-61 | the term becomes the larger of the two |
| `Election.ElectionAgent.StartElection` | crates/fracture-election/src/state_machine.rs:71-79 | the agent is candidate of the next term |
| `Election.ElectionAgent.OnElectionStart` | crates/fracture-election/src/state_machine.rs:82-121 | a start that is not older: the agent takes its term, challenges if it outranks the sender, and stands down otherwise; an older one changes nothing |
| `Election.ElectionAgent.OnElectionChallenge` | crates/fracture-election/src/state_machine.rs:124-148 | a challenge that is not older: the agent takes its term, and a candidate stands down |
| `Election.ElectionAgent.OnVictoryMessage` | crates/fracture-election/src/state_machine.rs:151-173 | a victory that is not older: the agent takes its term, follows, and accepts the sender as leader; an older one changes nothing |
| `Election.ElectionAgent.OnElectionTimeout` | crates/fracture-election/src/state_machine.rs:177-188 | a candidate becomes leader and says so in its term, others stay |
| `Election.VictoryObeyed` | crates/fracture-election/src/state_machine.rs:151-173 | on any world, a victory that is not older makes the receiver follow the sender in its term |
| `Election.ChallengeObeyed` | crates/fracture-election/src/state_machine.rs:124-148 | on any world, a challenge that is not older makes a candidate stand down, and nobody else |
| `Election.StartAnswered` | crates/fracture-election/src/state_machine.rs:82-121 | on any world, a start that is not older is challenged by a receiver of better rank, and any other receiver is no candidate any more |
| `Election.TimeoutWins` | crates/fracture-election/src/state_machine.rs:177-188 | on any world, a candidate that times out leads and says so in its term; nobody else does |
| `Election.TermsNeverFall` | crates/fracture-election/src/term.rs:38-61 | over any run no agent's term goes down |
| `Election.RoundIsSafe` | crates/fracture-election/src/state_machine.rs:71-188 | the round invariant holds in every reachable state |
| `Election.BestExists` | crates/fracture-election/src/state_machine.rs:82-121 | among any agents one outranks all others |
| `Election.SafeElection` | crates/fracture-election/src/state_machine.rs:71-188 | under any interleaving, loss or repetition, if no candidate is ahead of the best-ranked agent, only that agent becomes leader and it never stands down; other agents may be at any term |
| `Election.VictoryFollowed` | crates/fracture-election/src/state_machine.rs:151-173 | in every run of such a round, an agent that has received the best agent's victory is a follower at the end |
| `Election.SafeIff` | crates/fracture-election/src/state_machine.rs:71-188 | for any number of agents, all runs of the round are safe iff the best agent does not stand or no candidate is ahead of it |
| `Election.RaceEndsTwice` | crates/fracture-election/src/state_machine.rs:82-188 | any candidate ahead of the best agent has a run that ends with both leaders of one term |
| `Election.TwoLeaders` | crates/fracture-election/src/state_machine.rs:82-121 | a run with different start terms that ends with two leaders of one term |
| `LloydMax.IntegrateSimpson` | crates/fracture-core/src/turboquant.rs:171-180 | the loop is Simpson's weighted sum over an even number of parts |
| `LloydMax.CubicExact` | crates/fracture-core/src/turboquant.rs:171-180 | that sum integrates every cubic polynomial exactly, whatever the number of points |
| `LloydMax.CentroidBalances` | crates/fracture-core/src/turboquant.rs:215-230 | a new centroid times the mass of its cell is the first moment; with a mass of at most 1e-15 it stays |
| `LloydMax.StartSpacing` | crates/fracture-core/src/turboquant.rs:196-201 | the start centroids are the middles of equal parts of the range |
| `LloydMax.MeanBetween` | crates/fracture-core/src/turboquant.rs:215-230 | the weighted first moment lies strictly between the cell's ends times the weight |
| `LloydMax.CentroidInCell` | crates/fracture-core/src/turboquant.rs:215-230 | a new centroid is strictly inside its cell |
| `LloydMax.MirrorCentroid` | crates/fracture-core/src/turboquant.rs:215-230 | the mirrored cell has the mirrored centroid |
| `LloydMax.ImprovedAscends` | crates/fracture-core/src/turboquant.rs:203-237 | an iteration keeps centroids strictly ascending inside the edges |
| `LloydMax.ImprovedMirrors` | crates/fracture-core/src/turboquant.rs:203-237 | an iteration keeps the codebook symmetric about 0 |
| `LloydMax.BoundariesSeparate` | crates/fracture-core/src/turboquant.rs:239-242 | boundaries lie strictly between neighbouring centroids and are symmetric |
| `LloydMax.ComputeCodebook` | crates/fracture-core/src/turboquant.rs:186-250 | for every bit width: the centroids are what the solver makes of the middles of equal parts of plus and minus 3.5 sigma in the first iteration that moves none by 1e-10, or in 200, with 500 points each; they are ascending, inside three times that range and symmetric, and the boundaries are halfway between them |
| `Rotation.RunOrthonormal` | crates/fracture-core/src/turboquant.rs:399-438 | the run ends orthonormal iff every norm it meets exceeds the guard |
| `Rotation.OneNumber` | crates/fracture-core/src/turboquant.rs:399-438 | a column of one number becomes its sign iff it is larger than 1e-12 |
| `Rotation.RunFactors` | crates/fracture-core/src/turboquant.rs:399-438 | the run gives a Q with the matrix equal to QR, R upper triangular and positive on the diagonal |
| `Rotation.FactorsUnique` | crates/fracture-core/src/turboquant.rs:399-438 | there is only one such orthonormal Q |
| `Rotation.Orthogonalize` | crates/fracture-core/src/turboquant.rs:399-438 | the in-place loops give an orthonormal matrix iff every norm met exceeds the guard, and then the Q of the factors QR |
| `Rotation.FlipKeeps` | crates/fracture-core/src/turboquant.rs:325-335 | flipping a column's sign keeps orthonormality |
| `Rotation.FixSigns` | crates/fracture-core/src/turboquant.rs:325-335 | exactly the columns with a negative diagonal entry are negated, and orthonormality is kept |
| `Rotation.RotationMatrix` | crates/fracture-core/src/turboquant.rs:306-338 | orthonormal iff the guard is exceeded throughout, and then that Q up to the signs of its columns, with no negative diagonal entry |
| `Rotation.RotateByRows` | crates/fracture-core/src/turboquant.rs:1136-1172 | the product by rows is the product by columns |
| `Rotation.Adjoint` | crates/fracture-core/src/turboquant.rs:1136-1172 | dot(q, Pi^T y) = dot(Pi q, y) for any matrix |
| `Rotation.RoundTrip` | crates/fracture-core/src/turboquant.rs:306-338 | Pi^T (Pi x) = x for an orthonormal Pi |
| `Rotation.RoundTripBack` | crates/fracture-core/src/turboquant.rs:306-338 | Pi (Pi^T y) = y for a square orthonormal Pi |
| `Rotation.RowsOrthonormal` | crates/fracture-core/src/turboquant.rs:306-338 | Pi Pi^T = I for a square orthonormal Pi |
| `Rotation.LengthKept` | crates/fracture-core/src/turboquant.rs:306-338 | a rotation keeps every length |
| `Rotation.UnrotateOnce` | crates/fracture-core/src/turboquant.rs:1174-1220 | unrotating the weighted sum once is unrotating every term |
| `DistributedScheduling.ExactlyOnePlace` | bins/fracture-coordinator-cuda/src/distributed_loop.rs:106-132 | a received request is in exactly one of pending, active, answered |
| `DistributedScheduling.BuildBatch` | bins/fracture-coordinator-cuda/src/distributed_loop.rs:419-493 | each sequence at most once, prefills first, all limits kept, parts with the right ids and positions; a sequence that could be scheduled is left out only of a full batch, and a chunk is cut short only by a limit; empty iff a limit is 0 or nothing can be scheduled |
| `DistributedScheduling.NaiveEnds` | bins/fracture-coordinator-cuda/src/distributed_loop.rs:524-578 | naive generation samples each id on the reference logits of all before it and ends with the first stop token or at the limit |
| `DistributedScheduling.PathSampled` | bins/fracture-coordinator-cuda/src/distributed_loop.rs:524-578 | the same of its ids when the sampler fails in the end |
| `DistributedScheduling.SchedulableIffPrompt` | bins/fracture-coordinator-cuda/src/distributed_loop.rs:427-430 | an active sequence can be scheduled iff its prompt is not empty |
| `DistributedScheduling.PartContinues` | bins/fracture-coordinator-cuda/src/distributed_loop.rs:436-488 | a part of a batch goes to the next positions and continues the prompt and generated ids where they were left |
| `DistributedScheduling.HandOverKeeps` | bins/fracture-coordinator-cuda/src/distributed_loop.rs:419-502 | when a batch is handed over, everything ever sent for each request is still the prompt and the tokens shown, from the first on, at positions 0, 1, 2 and so on |
| `DistributedScheduling.SentMoved` | bins/fracture-coordinator-cuda/src/distributed_loop.rs:524-578 | after sampling, what has been fed is again what was sent |
| `DistributedScheduling.AdvanceKeeps` | bins/fracture-coordinator-cuda/src/distributed_loop.rs:524-578 | after sampling a sequence runs on, well fed, or has ended |
| `DistributedScheduling.AdvanceIsNaive` | bins/fracture-coordinator-cuda/src/distributed_loop.rs:524-578 | on reference logits a sequence stays on the path of naive generation, its tokens are the first that it samples, and it ends as it does: with an error iff naive generation fails |
| `DistributedScheduling.AdvanceShrinks` | bins/fracture-coordinator-cuda/src/distributed_loop.rs:524-578 | a sequence that runs on needs strictly less than before |
| `DistributedScheduling.AnsweredStays` | bins/fracture-coordinator-cuda/src/distributed_loop.rs:504-599 | an answered request stays answered |
| `DistributedScheduling.DistributedLoop.Receive` | bins/fracture-coordinator-cuda/src/distributed_loop.rs:120-132 | a new request waits; nothing else changes |
| `DistributedScheduling.DistributedLoop.Refuse` | bins/fracture-coordinator-cuda/src/distributed_loop.rs:406-411 | the first waiting request, and no other, is sent an error |
| `DistributedScheduling.DistributedLoop.FailPending` | bins/fracture-coordinator-cuda/src/distributed_loop.rs:223-237 | every waiting request, and no other, is sent an error |
| `DistributedScheduling.DistributedLoop.Abort` | bins/fracture-coordinator-cuda/src/distributed_loop.rs:189-195 | an active sequence, also one of a failed batch, and no other is sent an error, and is gone; what was sent for it stays right |
| `DistributedScheduling.DistributedLoop.AbortEach` | bins/fracture-coordinator-cuda/src/distributed_loop.rs:185-195 | exactly the active ones among the ids are aborted and sent an error |
| `DistributedScheduling.DistributedLoop.Admit` | bins/fracture-coordinator-cuda/src/distributed_loop.rs:385-405 | the first waiting request becomes active with its whole prompt to feed |
| `DistributedScheduling.DistributedLoop.Sample` | bins/fracture-coordinator-cuda/src/distributed_loop.rs:521-578 | every sequence of the batch has been fed its chunk and the others are untouched; ended ones are returned; on reference logits all stay naive and no error is sent but where naive generation fails; each needs less than before |
| `DistributedScheduling.DistributedLoop.Finish` | bins/fracture-coordinator-cuda/src/distributed_loop.rs:580-599 | the final event carries the number of ids generated and Stop iff the last is a stop token, Length otherwise; a sequence that ended rightly has the answer of naive generation, told by its ids alone |
| `ServingLoop.PlanContinues` | bins/fracture-coordinator-cuda/src/distributed_loop.rs:419-502 | a plan over active sequences continues each of them where the workers stand |
| `ServingLoop.FailBatch` | bins/fracture-coordinator-cuda/src/distributed_loop.rs:504-519 | the batch's sequences, and no others, are sent an error and removed, the others are as before; afterwards the pipeline serves only if nothing was unread and nobody told announces its leave, and then it serves |
| `ServingLoop.FinishAll` | bins/fracture-coordinator-cuda/src/distributed_loop.rs:580-599 | ended sequences are told, removed and freed, and a serving pipeline goes on serving the rest iff no worker announces its leave |
| `ServingLoop.Deliver` | bins/fracture-coordinator-cuda/src/distributed_loop.rs:521-599 | the rows of a batch are sampled and ended sequences removed; less work is left; the pipeline goes on serving iff no worker announces its leave when a removed sequence is freed |
| `ServingLoop.Pass` | bins/fracture-coordinator-cuda/src/distributed_loop.rs:495-519 | a batch over an intact pipeline goes through if all stages compute and stay, and its rows are the reference logits; when it fails nothing is unread iff no stage announced its leave before one failed to answer, and then the rest is served on |
| `ServingLoop.ServeBatch` | bins/fracture-coordinator-cuda/src/distributed_loop.rs:419-599 | on an intact pipeline whose stages compute and stay the batch goes through, and no error is sent but where naive generation fails; whether it does or not, what is generated is naive generation's and less work is left; the pipeline stays intact iff no message of the pass, as far as it gets, and of the removals meets a leave |
| `ServingLoop.AdmitFirst` | bins/fracture-coordinator-cuda/src/distributed_loop.rs:375-412 | on an intact pipeline: admitted iff the sequence is new and every worker can allocate and stays, an error otherwise; the pipeline stays intact iff nothing is left unread, surely if the request is admitted, known, or refused by a single worker that stays, and surely not if a worker leaves |
| `ServingLoop.AdmitOne` | bins/fracture-coordinator-cuda/src/distributed_loop.rs:363-412 | the first waiting request is taken iff the serving worker with the fewest free blocks has more than the reserve, or none at all |
| `ServingLoop.HandleDeaths` | bins/fracture-coordinator-cuda/src/distributed_loop.rs:176-240 | exactly the pipeline's sequences are aborted and sent an error; a new empty pipeline without a dead worker iff the scheduler accepts the others, or else degraded with every waiting request sent an error; the new one is laid out iff the old named each worker once, the model fits and the new workers are registered, and then serves iff they are heard out |
| `ServingLoop.Evaluate` | bins/fracture-coordinator-cuda/src/distributed_loop.rs:138-240 | the heartbeat round and what follows: dead are exactly the serving workers whose count, restarted by an ack of the pending heartbeat, reaches the limit; then a new pipeline without them, or a degraded loop without waiting requests; without any the loop stays; what the workers hold stays right if `ok`, that is, iff there is no new pipeline or it is laid out; nobody dies, and loop, pipeline and streams are not concerned, as long as every worker may miss one more |
| `ServingLoop.Heartbeat` | bins/fracture-coordinator-cuda/src/distributed_loop.rs:134-247 | the same if a heartbeat was pending, the next one is sent, and the answers of the workers that serve on are unread |
| `ServingLoop.ShutDown` | bins/fracture-coordinator-cuda/src/distributed_loop.rs:272-281 | workers that leave give up all caches and are dead; the others are not concerned |
| `ServingLoop.HandleMembership` | bins/fracture-coordinator-cuda/src/distributed_loop.rs:249-311 | with nothing active, a change happens iff a worker drains or waits; there is a new pipeline iff the scheduler accepts the workers neither dead nor draining, without one the loop is degraded, and workers that have left hold no caches; the new pipeline is laid out iff the old named each worker once, the model fits and its workers are registered, and then serves iff they are heard out: empty streams, silent frees, nothing before the answer |
| `ServingLoop.Regroup` | bins/fracture-coordinator-cuda/src/distributed_loop.rs:249-311 | the same as a step of the loop: nothing happens unless the loop is idle and a worker drains or waits; what the workers hold stays right if `ok`, that is, iff the loop is degraded or the new pipeline laid out; it does not serve if anything of its workers was unread, were it an ack |
| `ServingLoop.SeeWorkers` | bins/fracture-coordinator-cuda/src/distributed_loop.rs:134-311 | a new pipeline is always laid out if the workers are registered and the model fits; it does not serve if one of its workers has answered the heartbeat of the same iteration and nobody was found dead in it; with no leave, death, drain or wait nothing changes |
| `ServingLoop.LeaveAndAnswer` | bins/fracture-coordinator-cuda/src/distributed_loop.rs:242-311 | two workers, one leaving: if the other answers the heartbeat sent before the change, its `WorkerReady` stays unread and the new pipeline does not serve; without that heartbeat it does |
| `ServingLoop.AnsweredFirst` | bins/fracture-coordinator-cuda/src/distributed_loop.rs:242-311 | the same for any workers: one that has answered is not heard out |
| `ServingLoop.Observe` | bins/fracture-coordinator-cuda/src/distributed_loop.rs:112-311 | if no pipeline comes in from elsewhere and new ones are sure to be laid out, a sane loop stays sane iff `ok`; in a peaceful tick it stays undisturbed |
| `ServingLoop.StartsUndisturbed` | bins/fracture-coordinator-cuda/src/distributed_loop.rs:99-111 | a loop with nothing active over a pipeline that serves from scratch and workers that hold nothing is undisturbed; with an empty log over a new pipeline nothing has failed |
| `ServingLoop.KeepsServes` | crates/fracture-coordinator/src/pipeline.rs:23-34 | a pipeline whose workers hold what was seen serves iff nothing but heartbeat acks is unread |
| `ServingLoop.Pause` | bins/fracture-coordinator-cuda/src/distributed_loop.rs:313-361 | a degraded loop sends exactly the waiting requests an error; stops iff nothing is then pending or active and the channel is closed; does nothing when there is work and no degradation |
| `ServingLoop.Work` | bins/fracture-coordinator-cuda/src/distributed_loop.rs:363-599 | exactly the first waiting request is taken, if the workers have room beyond the reserve; if something can be admitted or scheduled, less work is left; what cannot be scheduled stays; an intact pipeline stays intact and true to naive generation iff `ok`, unless the order of replies to a refused allocation decides, and `ok` holds if nobody leaves and the workers have room, whether passes fail or not; if all devices compute as well, no error is sent but where naive generation fails |
| `ServingLoop.Iterate` | bins/fracture-coordinator-cuda/src/distributed_loop.rs:112-600 | one iteration keeps all invariants and stops only when nothing is left; workers hold only sequences that were received and wait no more; what the workers hold and what is answered stays right, deaths and failures included, if `ok`, and a loop on its course stays on it with `ok` in every peaceful tick, without an error that naive generation would not give if all devices compute |
| `ServingLoop.Task` | bins/fracture-coordinator-cuda/src/distributed_loop.rs:99-601 | whole runs: conservation; everything sent for a request, failed batches included, is a prefix of prompt and tokens at positions 0, 1, 2 and so on; workers hold only received sequences that wait no more; if `ok`, tokens are the first of naive generation and answers without an error equal to it, stop reason and count included, over failed passes, dead, leaving and joining workers; `ok` holds for all ticks without a pipeline from elsewhere or a leave, with room to allocate and fewer heartbeats than may be missed; if all devices compute as well, every request is answered in full as naive generation is, with an error iff that fails; return within a bound on the work, and no return while a sequence with an empty prompt is active |

## Left out

- CUDA kernels, cuBLAS, profiling and timers: kernels are row functions, and only their causal shape is used.
- Floating point: rounding, FP16 conversion and the random generators; numbers are reals and matrices arbitrary.
- Widths of integers: 64-bit wrap-around of ids, terms and counters.
- TCP framing, serialization, CRC, tasks and locks: messages are values, a stream is a sequence, a locked section one step.
- Sampling itself, tokenization, chat templates, GGUF loading, HTTP handlers, admin API, dashboard, configuration.
- The local batch scheduler of the single-node server, sequence state manager, graceful rebalance record: only easy members.
- Quantized block packing and its kernels; precomputed codebook tables; only the codebook solver and the rotation algebra are modelled.
- Coordinator promotion, seed discovery and the reconnection listener.
- Device buffers in the paged and batched passes: the block pool is updated in place, but scratch tensors there are values.
- BatchedEngine.BatchedForward: batches that name a sequence twice, or whose first sequence is empty, are excluded.
- BatchedEngine.BatchedForwardNode: batches that name a sequence twice, and tail batches whose first sequence is empty, are excluded.
- WorkerBatch.HandleBatched: the same batches are excluded.
- `hidden_size` checks when a reply's tensor header has no last dimension.
- ForwardEngine.ForwardNode: says nothing about the tensors left live after an error.
- WorkerDevice.HandleForward: the rows cached and the tensors live after an error are not described.
- PagedCaching.PagedKvCacheManager.constructor: the pool's own tensors are not taken from the device, so that their allocation cannot fail.
- WorkerCaches.Caches.HandleReconfigure: loading the weights fails only for a layer count that is not the model's.
- LayerScheduler.ScheduleManual: an empty list for a model without layers is excluded, where the code indexes an empty list.
- LayerScheduler.MakeSchedule: the same, in Manual mode.
- Coordination.DistributedPipeline.AllocCache: on streams that already hold unread replies only the coordinator's own record of allocated sequences is described; what later passes return is then given by the stages, not by the reference.
- Rebalance.ForcedRebalance: whether the new pipeline serves is stated for an old one that names each worker once, and workers with the model's size of activations.
- ServingLoop.Task: answers are not described once a pipeline built elsewhere has come in, or something other than a heartbeat ack has been left unread; what can happen then is `Coordination.LeaveStale`. That `ok` holds beforehand is stated for runs in which nobody can count as dead; when a change of workers leaves nothing unread is stated for one change, by `Regroup` and `HandleDeaths`.
- Heartbeats.PollAll: a poll that times out in the middle of a frame is not modelled; a poll finds a whole message or nothing.
