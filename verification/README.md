# CatKV: a verified model of the cache's moving parts

CatKV keeps the KV cache of language-model prompts: it compresses it, uploads it to an object store, loads it
back into GPU memory layer by layer, and blends cached segments with freshly computed ones. This project models
the parts where that is hard to get right (concurrency, pipelining, binary layout, index bookkeeping, budgets)
and proves what they guarantee. `dafny verify dfyconfig.toml` checks everything.

| files | part of the system |
|---|---|
| `UploadLedger`, `RawQueue`, `UploadProtocol`, `UploadAccounts`, `UploadOutcomes`, `UploadBytes`, `UploadGroups`, `UploadProgress` | the remote upload pipeline as a step machine over all interleavings, with the locked blocks of its two main classes as methods |
| `SharedKeySv`, `KeySvNames` | saving split payloads with one shared key_sv object per group, and its object names |
| `LayerwiseLoad`, `LayerwiseStore` | the layerwise GPU generators as objects with explicit resume points, and their drivers |
| `TensorCodec`, `TensorRoundTrip`, `GpuLayout` | the tensor-dictionary codec, object layout and the arenas |
| `HybridStore`, `PrefixCache` | the chunked prefix cache over a read-through backend |
| `BlendRetriever`, `BlendExecutor` | rebuilding KV from segments with undefined rows, and CacheBlend's token selection |
| `SlotPool` | ownership of the shared buffer slots between submitters and offload workers |
| `KeySvIndex`, `KeySvReuse` | the uuid index of the Transformers side, the store it must agree with, and both together |
| `Quantizer`, `RankBudget`, `RealOrder` | four-bit quantisation and the rank budget over exact reals |
| `Totals`, `Options` | counting over threads, subsequences, and optional values |

## How concurrency is modelled

Each block under a mutex, and each call that only touches thread-local data, is one step. The gaps the code
leaves open are states of their own: between making a path pending and entering the queue, asleep on the capacity
condition variable (such a call can no longer evict and throws as soon as the manager stops), between evicting a
task and notifying its owner, between inserting a shared key_sv name and saving it, between cloning a slot and
handing it back. Safety statements hold for every finite run from the initial state. Progress is stated twice:
while anything is left to do some running thread can take a step, and a run with finitely many submits is finite.
A wake-up that finds its predicate false and a worker that polls without taking a task change nothing and are no
steps.

Assumptions: a compression failure happens before anything of its batch is emitted; `mark_uploaded_` and
`on_success` do not throw; memory and thread creation do not fail, except `cudaMalloc`, which may. The process
RSS check is a free boolean of each submit.

## What does not hold, and when it does

- A submit that has taken its version but not entered the queue when compression stops throws and leaves its path
  pending for ever (`ShutdownCanLoseASubmit`, `LostPathStaysPending`). After a shutdown the pending map is empty if
  and only if every submit call returned (`AfterShutdown`).
- A submit larger than the raw limit never returns (`OversizeNeverReturns`), and a payload larger than the save
  limit blocks its worker and its group for ever (`OversizePayloadBlocks`). A run that no thread can continue has
  nothing left to do if and only if neither sleeps in it (`MaximalRunsEndQuiescent`), which is so when every submit
  and every payload of the run fits its queue (`SmallRunsFit`).
- A failed save of a shared key_sv object, or a second batch of the same group, breaks loading: an uploaded path
  can be unloadable or get another batch's key_sv (`FailedClaimLosesAnUpload`, `SecondBatchGetsFirstKeySv`). At any
  moment of every run, whatever failed, an uploaded path loads if and only if the key_sv object under its name was
  written, and then its other part over the key_sv of the job that wrote it (`UploadedLoads`); that is what was split
  if and only if the two key_sv parts agree outside the entries the other part overrides (`LoadsWhatWasSplit`). When
  the workers are idle a shared object was written if and only if its name is in the set of saved names
  (`WrittenWhenIdle`), so with one batch per uuid and layer an uploaded path loads back if and only if its name is in
  that set (`LoadsBackIffSaved`).
- Splitting a compressed dictionary keeps every entry if and only if it has no entry outside the nine known names
  and its uuid is a vector of 32-bit integers already (`SplitRoundTrip`).
- `retrieve_layer` raises when no chunk is cached, because the guard around it is commented out (`RetrieveLayer`).
- After a failed `cudaMalloc` the GPU arena has no memory but keeps its capacity and hands out pointers
  (`PointerWithoutMemory`); `Allocate` states exactly when the arena stays sound.
- The segment retriever raises if and only if there is no segment or one is empty (`WaitForResult`).
- A blend executor never clears its indexes. A second pass fails if and only if an index of the first selection
  lies outside the second batch; otherwise layer 1 hands on the rows of both selections, and the start locations
  agree with them if and only if the first pass selected nothing. The deeper layers still get complete K and V
  (`SecondPass`).
- A worker that raises after handing its slot back duplicates the slot, and another request's data is then stored
  (`LateRaiseMixesRequests`); slots are in one place each if and only if that never happened
  (`OnePlaceIffNoLateRaise`). On every run a clone starts with the rows last copied into its slot, which says when
  data mixes (`CloneIsLastCopy`). A submission longer than a buffer loses its slot for good (`OversizeLosesSlot`).
- The greatest value of a row gets the code 15 if and only if the row is wider than 0.000029, because the range is
  widened by 0.000001 before dividing (`GreatestCode`).
- The rank fallback can leave room for a low rank it does not hand out (`FallbackLeavesRoom`); `LowRankMaximal`
  gives the exact condition.
- Both arenas start from the front again when a block does not fit behind the cursor. A block below the cursor
  survives the next one if and only if that fits behind the cursor or ends before the block
  (`EarlierBlockSurvives`), and blocks cut from the front are pairwise apart if and only if together they fit the
  arena (`RunApartIffFits`). Otherwise views of an earlier batch are overwritten (`BlocksOverlap`); `TwoLoads` says
  exactly when two batches on the device stay apart and that the first is then intact.

## Model

| member | source | states |
|---|---|---|
| `UploadLedger.RemotePipeline.Submit` | csrc/src/remote_pipeline.cpp:205-252 | the locked part of a submit: dropped exactly when the path is pending or uploaded at its current version, else a new version is pending, or in error under memory pressure; the map invariants are kept |
| `UploadLedger.RemotePipeline.FinalizeSuccessLocked` | csrc/src/remote_pipeline.cpp:386-393 | keeps the map invariants; a pending version becomes the uploaded one and nothing else moves, so the path is present and a further submit of it is dropped |
| `UploadLedger.RemotePipeline.FinalizeErrorLocked` | csrc/src/remote_pipeline.cpp:395-404 | keeps the map invariants exactly if the version is not the uploaded one; a pending version leaves an error and its path may be submitted again |
| `UploadLedger.RemotePipeline.HandleEvictedTask` | csrc/src/remote_pipeline.cpp:445-453 | keeps the map invariants; a pending version is forgotten without an error and its path may be submitted again; a stale notice changes nothing |
| `UploadLedger.RemotePipeline.Contains` | csrc/src/remote_pipeline.cpp:317-323 | under the map invariants true exactly if some version of the path was uploaded, and then nothing is pending and there is no error |
| `UploadLedger.AdmitKeeps` | csrc/src/remote_pipeline.cpp:205-252 | admission keeps pending, uploaded and errored paths disjoint and current, and issues one new version for one path at most |
| `UploadLedger.SuccessKeeps` | csrc/src/remote_pipeline.cpp:386-393 | finishing the pending version of a path moves exactly that version from pending to uploaded |
| `UploadLedger.ErrorKeeps` | csrc/src/remote_pipeline.cpp:395-404 | failing the pending version removes exactly it from pending and keeps the invariants |
| `UploadLedger.EvictKeeps` | csrc/src/remote_pipeline.cpp:445-453 | an eviction notice removes exactly the evicted pending version |
| `RawQueue.CompressionManager.HasDispatchableTaskLocked` | csrc/src/compression_manager.cpp:255-264 | true exactly when some queued task has no group or a group that is not active |
| `RawQueue.CompressionManager.TakeDispatchableTasksLocked` | csrc/src/compression_manager.cpp:266-335 | the batch is non-empty exactly when a task is dispatchable; it is the first such task or all queued tasks of its group, and the group becomes active |
| `RawQueue.CompressionManager.CollectReady` | csrc/src/compression_manager.cpp:287-335 | moves exactly the queued tasks of the group, in queue order, to the end of the batch |
| `RawQueue.CompressionManager.EvictOneQueuedTaskLocked` | csrc/src/compression_manager.cpp:337-349 | removes the oldest queued task and its bytes, or nothing when the queue is empty |
| `RawQueue.CompressionManager.ReleaseBytes` | csrc/src/compression_manager.cpp:196-206 | undoes a charge of the same size and leaves the rest of the queue alone; the charge is not restored by charging again exactly if less was charged |
| `RawQueue.TakeKeepsOrder` | csrc/src/compression_manager.cpp:266-335 | for every group the batch followed by what stays queued is the old queue order |
| `RawQueue.CollectKeepsOrder` | csrc/src/compression_manager.cpp:287-335 | the same for tasks collected while waiting |
| `RawQueue.BatchShape` | csrc/src/compression_manager.cpp:266-335 | a batch is one task without a group, or tasks of a single group |
| `RawQueue.TakeConserves` | csrc/src/compression_manager.cpp:266-335 | a take neither loses nor duplicates a task, for every way of counting them |
| `RawQueue.GroupKeysAgree` | csrc/src/compression_manager.cpp:58-64 | a task has no group exactly if its uuid is empty; others are in one group exactly if uuid and layer agree, whatever the uuid looks like |
| `UploadAccounts.StepMoves` | csrc/src/compression_manager.cpp:374-433 | a step only moves a version between stages, starts one or finishes one |
| `UploadAccounts.NeverStale` | csrc/src/remote_pipeline.cpp:386-455 | the version a completing step settles is the pending and current one of its path |
| `UploadAccounts.StepMovesLedger` | csrc/src/remote_pipeline.cpp:386-455 | which version every step of the protocol enters in the three maps and which it takes out, for every version; what it ends as is `StepTells` |
| `UploadAccounts.StepKeepsAccounts` | csrc/src/remote_pipeline.cpp:205-254 | every step keeps: a version is held by exactly one stage while pending, ends once, is uploaded exactly if it ended so, and then fires its callback once |
| `UploadAccounts.RunKeepsAccounts` | csrc/src/remote_pipeline.cpp:205-254 | the same after every run |
| `UploadOutcomes.StepTells` | csrc/src/remote_storage_manager.cpp:272-335 | every step keeps: what happened to a version (its save returned or threw, its batch failed, it was evicted or refused), counted over the steps, is what it ended as or is about to |
| `UploadOutcomes.RunTells` | csrc/src/remote_storage_manager.cpp:272-335 | the same over every run |
| `UploadOutcomes.OneFate` | csrc/src/remote_pipeline.cpp:386-455 | on every run from the start at most one of these happens to a version, once |
| `UploadOutcomes.UploadedOnlyIfSaved` | csrc/src/remote_storage_manager.cpp:294-317 | on every run from the start a version is uploaded, or its callback runs, only if the run holds its own save returning; once that is reported the version is uploaded |
| `UploadOutcomes.FailedSaveNeverUploads` | csrc/src/remote_storage_manager.cpp:318-335 | on every run from the start a version whose save threw never also returns, is never uploaded and never fires; once reported it ended so, once, and its path is in error unless submitted again |
| `UploadOutcomes.FailedNeverUploaded` | csrc/src/remote_pipeline.cpp:395-443 | the same for failed compression and refusal under memory pressure |
| `UploadOutcomes.EvictedNeverUploaded` | csrc/src/remote_pipeline.cpp:445-453 | an evicted version is never uploaded and never fires |
| `UploadOutcomes.RunAgrees` | csrc/src/remote_pipeline.cpp:386-404 | on every run a path is in the error map exactly if its latest version ended as failed save, failed compression or refusal |
| `UploadOutcomes.ReportRecords` | csrc/src/remote_pipeline.cpp:414-443 | reporting a returned save makes the path present without error; reporting a thrown one records its message and the path is not present |
| `UploadProgress.OneTaskPerPath` | csrc/src/remote_pipeline.cpp:205-254 | each path has at most one live version across all stages, and it is the pending and latest one |
| `UploadProgress.UploadedForever` | csrc/src/remote_pipeline.cpp:207-233 | once a path is uploaded it stays so at that version, without an error, on every continuation |
| `UploadProgress.CallbackAtMostOnce` | csrc/src/remote_pipeline.cpp:414-424 | a path's success callback fires at most once, for at most one version |
| `UploadBytes.ClampUnused` | csrc/src/compression_manager.cpp:196-206 | no counter is ever smaller than what a step subtracts from it |
| `UploadBytes.StepKeepsBytes` | csrc/src/remote_storage_manager.cpp:192-213 | every step keeps both byte counters equal to what is queued or in work, and within their limits |
| `UploadBytes.RunKeepsBytes` | csrc/src/compression_manager.cpp:165-206 | the same after every run |
| `UploadGroups.OneWorkerPerGroup` | csrc/src/compression_manager.cpp:255-335 | no two busy workers have the same group, and a busy worker's group is active |
| `UploadGroups.StepKeepsGroups` | csrc/src/compression_manager.cpp:374-433 | every step keeps: active keys are exactly those of batches in flight, batches are homogeneous, group order is kept |
| `UploadGroups.RunKeepsGroups` | csrc/src/compression_manager.cpp:374-433 | the same after every run |
| `UploadGroups.GroupFifo` | csrc/src/compression_manager.cpp:266-335 | the tasks of a group reach the save queue as a subsequence of their enqueue order, on every run |
| `UploadProgress.RunKeepsInv` | csrc/src/remote_pipeline.cpp:369-384 | all invariants together, with the order in which the managers stop, after every run |
| `UploadProgress.RunsAreFinite` | csrc/src/compression_manager.cpp:374-433 | a run with k submits takes at most a bound given by the state plus 21 k steps, counting blocks that change something |
| `UploadProgress.Progress` | csrc/src/remote_storage_manager.cpp:272-338 | while anything is left to do and nothing sleeps on more than its limit, a running thread can step; a sleeping submit waits for a worker to move |
| `UploadProgress.MaximalRunsEndQuiescent` | csrc/src/remote_storage_manager.cpp:272-338 | a run no running thread can continue has nothing left to do exactly if no submit and no payload larger than its limit sleeps |
| `UploadProgress.SmallRunsFit` | csrc/src/compression_manager.cpp:165-194 | if every submit and payload of a run fits its queue, nobody sleeps on more than a limit |
| `UploadProgress.OversizeNeverReturns` | csrc/src/compression_manager.cpp:165-194 | on every run a submit larger than the raw limit never returns, and is thrown out only by a stop |
| `UploadProgress.OversizePayloadBlocks` | csrc/src/remote_storage_manager.cpp:192-203 | on every run a payload larger than the save limit keeps its worker where it is, its group active and the storage manager running |
| `UploadProgress.AfterShutdown` | csrc/src/remote_pipeline.cpp:369-384 | after both managers stopped: queues empty, counters zero, no active group, every version ended once or was lost by a throwing submit; pending is empty exactly when every submit returned |
| `UploadProgress.LateSubmitIsLost` | csrc/src/compression_manager.cpp:165-194 | once compression stops, a submit that has not enqueued never will |
| `UploadProgress.ShutdownCanLoseASubmit` | csrc/src/remote_pipeline.cpp:251-254 | a concrete run that ends with a path pending after a complete shutdown |
| `UploadProgress.LostPathStaysPending` | csrc/src/remote_pipeline.cpp:207-227 | such a path stays pending and every later submit of it is dropped |
| `KeySvNames.ParseLayerIdx` | csrc/src/shared_key_sv_path.cpp:55-70 | the number after the last `layer_`, or -1 without marker or digits |
| `KeySvNames.PathIdInjective` | csrc/src/shared_key_sv_path.cpp:30-42 | different uuids have different path ids |
| `KeySvNames.SharedKeySvPathInjective` | csrc/src/shared_key_sv_path.cpp:44-53 | shared names are equal exactly when directory, uuid and layer are |
| `KeySvNames.SharedPathWritten` | csrc/src/shared_key_sv_path.cpp:44-53 | the shared name written out: beside the path, both halves of the uuid, the layer and the suffix |
| `KeySvNames.Decimals` | csrc/src/shared_key_sv_path.cpp:30-42 | numbers are decimal, most significant digit first, with a sign |
| `SharedKeySv.SplitRoundTrip` | csrc/src/compression_manager.cpp:66-94 | splitting and merging a dictionary gives it back exactly when it is not split, or has no unknown entry and a uuid that is a vector of 32-bit integers |
| `SharedKeySv.SplitParts` | csrc/src/compression_manager.cpp:66-94 | which of the nine entries each part gets, by name |
| `SharedKeySv.Unsplit` | csrc/src/compression_manager.cpp:66-94 | without one of the four marks nothing is split |
| `SharedKeySv.UseLargestRankKeySv` | csrc/src/compressor.cpp:38-75 | every payload of a batch gets the three key_sv tensors of one payload and nothing else changes: the first whose second to last dimension is largest, one without the tensor counting as zero and one with fewer dimensions by its elements; fails exactly if that payload lacks a tensor |
| `SharedKeySv.SameBatchSameKeySv` | csrc/src/compressor.cpp:50-75 | after that all payloads of a batch split into equal key_sv parts |
| `SharedKeySv.PartNamesDiffer` | csrc/src/remote_storage_manager.cpp:25-31 | the object names of the two parts of a job never coincide |
| `SharedKeySv.WhereItGoes` | csrc/src/remote_storage_manager.cpp:85-127 | the names a save writes, written out: shared exactly above layer 2 with a uuid |
| `SharedKeySv.StepKeepsClaims` | csrc/src/remote_storage_manager.cpp:85-127 | a claimed shared name is present remotely or held by exactly one worker, whatever fails |
| `SharedKeySv.RunKeepsClaims` | csrc/src/remote_storage_manager.cpp:85-127 | the same after every run |
| `SharedKeySv.RunKeepsStored` | csrc/src/remote_storage_manager.cpp:85-127 | on every run, whatever fails: objects named after a path hold their job's part, the shared objects are those written and hold their writer's key_sv, and everything an upload wrote under its own names is there |
| `SharedKeySv.UploadedLoads` | csrc/src/remote_storage_manager.cpp:215-232 | at any moment of every run, whatever failed, an uploaded path loads exactly if the key_sv object under its name was written: its other part over the writer's key_sv |
| `SharedKeySv.LoadsWhatWasSplit` | csrc/src/remote_storage_manager.cpp:215-232 | that is the dictionary that was split exactly if the writer's key_sv agrees with the job's own outside the entries the other part overrides |
| `SharedKeySv.RunKeepsWritten` | csrc/src/remote_storage_manager.cpp:105-123 | on every run a shared object was written exactly if its name is in the saved set and no worker is saving or erasing it, and it is never written again |
| `SharedKeySv.WrittenWhenIdle` | csrc/src/remote_storage_manager.cpp:105-123 | when the workers are idle, exactly if its name is in the saved set |
| `SharedKeySv.LoadsForever` | csrc/src/remote_storage_manager.cpp:215-232 | a path that loads goes on loading the same on every continuation |
| `SharedKeySv.SharedNameOneContent` | csrc/src/compressor.cpp:713-739 | jobs of one batch per uuid and layer that have the same shared name have the same key_sv part |
| `SharedKeySv.LoadsBackIffSaved` | csrc/src/remote_storage_manager.cpp:215-232 | with one batch per uuid and layer and no colliding names, once the workers are idle an uploaded path loads what was split exactly if its shared name is in the saved set, whatever failed |
| `SharedKeySv.UploadedLoadsBack` | csrc/src/remote_storage_manager.cpp:215-232 | so it does if no save of its own shared name failed |
| `SharedKeySv.FailedClaimLosesAnUpload` | csrc/src/remote_storage_manager.cpp:105-126 | a concrete run after which an uploaded path cannot be loaded |
| `SharedKeySv.SecondBatchGetsFirstKeySv` | csrc/src/remote_storage_manager.cpp:85-127 | a second batch of a group loads back with the first batch's key_sv |
| `LayerwiseLoad.ScatterMeaning` | catkv-vllm/lmcache/v1/gpu_connector.py:502-509 | writing rows to distinct slots puts each row in its slot and leaves the other slots alone |
| `LayerwiseLoad.ComputeGaps` | catkv-vllm/lmcache/v1/gpu_connector.py:460-469 | the gap mask marks exactly the positions no chunk covers |
| `LayerwiseLoad.RotatedRows` | catkv-vllm/lmcache/v1/gpu_connector.py:524-535 | whatever the buffer held before, after re-rotation and gap clearing it holds the re-rotated chunk rows and zero gap rows |
| `LayerwiseLoad.LayerLoader.constructor` | catkv-vllm/lmcache/v1/gpu_connector.py:457-542 | the state at the first pause: two buffers with arbitrary contents, nothing flushed or published |
| `LayerwiseLoad.LayerLoader.Send` | catkv-vllm/lmcache/v1/gpu_connector.py:500-565 | one resumption with a layer: the pause moves on, and the mapping holds exactly the layer just sent |
| `LayerwiseLoad.LayerLoader.Finish` | catkv-vllm/lmcache/v1/gpu_connector.py:500-576 | the last resumption flushes the last layer and ends with an empty mapping |
| `LayerwiseLoad.LayerLoader.IssueLoad` | catkv-vllm/lmcache/v1/gpu_connector.py:544-562 | only into a buffer that is neither being flushed nor loaded, every chunk's rows and, at layer 0, positions are copied to their places |
| `LayerwiseLoad.LayerLoader.Flush` | catkv-vllm/lmcache/v1/gpu_connector.py:501-510 | writes exactly one layer's buffered rows to its slots and unpublishes it |
| `LayerwiseLoad.Drive` | catkv-vllm/lmcache/v1/cache_engine.py:602-645 | one send per layer and a last next take the generator from its first pause to its end, for every number of layers |
| `LayerwiseLoad.RetrieveLayer` | catkv-vllm/lmcache/v1/cache_engine.py:602-645 | fails exactly when no chunk is cached; otherwise N+2 yields, and every layer's page is its initial page with that layer's re-rotated and gap-cleared rows written once |
| `LayerwiseLoad.LoadedTokens` | catkv-vllm/lmcache/v1/gpu_connector.py:457-576 | with distinct slots every cached token ends with its key re-rotated to its new position and its value, every gap token with zeros, and every other slot as before in both K and V |
| `LayerwiseStore.PackSlots` | catkv-vllm/lmcache/v1/gpu_connector.py:626-642 | the slots of all chunks are packed in order with the offsets where each chunk starts |
| `LayerwiseStore.LayerStorer.CopyLayer` | catkv-vllm/lmcache/v1/gpu_connector.py:657-686 | the copy of a layer holds, chunk by chunk, the paged rows at the chunk's slots and its positions |
| `LayerwiseStore.LayerStorer.Resume` | catkv-vllm/lmcache/v1/gpu_connector.py:657-694 | resuming waits for the issued layer before it is visible, then issues the next one or ends |
| `LayerwiseStore.StoreLayer` | catkv-vllm/lmcache/v1/cache_engine.py:405-437 | every layer put into storage was synchronised first and equals the paged rows at its chunks' slots |
| `LayerwiseStore.StoreThenLoad` | catkv-vllm/lmcache/v1/gpu_connector.py:457-694 | storing and loading at the same positions and distinct slots restores every row |
| `TensorCodec.ComputeSize` | csrc/include/tensor.h:119-126 | the wrapping running product is the true byte size modulo 2^64; written out for no, one and two dimensions |
| `TensorCodec.FromCode` | csrc/include/tensor.h:19-27 | exactly the codes below seven are types; the type has that code and the width of the format |
| `TensorCodec.ProductConcat` | csrc/include/tensor.h:119-126 | the element count of a shape is the product of the counts of its two parts, wherever it is cut |
| `TensorCodec.Layouts` | csrc/include/tensor.h:19-27 | the code of every type by name, and the byte size of scalars, vectors and matrices of floats |
| `TensorCodec.AppendValue` | csrc/src/s3_manager.cpp:236-242 | appends the value's bytes, least significant first |
| `TensorCodec.ValueRoundTrip` | csrc/src/s3_manager.cpp:134-172 | reading the bytes of a value that fits gives the value back |
| `TensorCodec.WordBytes` | csrc/src/s3_manager.cpp:236-242 | the bytes of 4- and 8-byte values written out |
| `TensorCodec.Padding` | csrc/src/s3_manager.cpp:289-296 | the padding is below 256 and puts the data on a 256-byte boundary |
| `TensorCodec.EncodeSucceeds` | csrc/src/s3_manager.cpp:297-301 | serialising fails exactly when a non-empty tensor has no data |
| `TensorCodec.MatrixBytes` | csrc/src/s3_manager.cpp:263-306 | the whole encoding of a dictionary with one matrix, of any name, shape and data: magic, version, fields in order and width, padding, data |
| `TensorCodec.SerializeTensorMap` | csrc/src/s3_manager.cpp:263-306 | the loops write exactly the specified encoding, or fail where it has no data |
| `TensorCodec.MemoryReader.Read` | csrc/src/s3_manager.cpp:134-172 | reads an integer and advances, or fails at the end of the buffer |
| `TensorCodec.MemoryReader.ReadTensorView` | csrc/src/s3_manager.cpp:174-199 | reads a tensor as a view into the buffer with every error condition of the code |
| `TensorCodec.ParseFromMemoryZeroCopy` | csrc/src/s3_manager.cpp:201-225 | the parser computes the specified dictionary of views or its first error |
| `TensorRoundTrip.ParseBack` | csrc/src/s3_manager.cpp:201-225 | whatever follows a serialised dictionary, parsing consumes exactly its bytes and its views are in order, disjoint, aligned and show the tensors' data |
| `TensorRoundTrip.RoundTrip` | csrc/src/s3_manager.cpp:263-306 | serialising any storable map in any iteration order, then parsing with any tail, gives the map back |
| `TensorRoundTrip.ParseStable` | csrc/src/s3_manager.cpp:134-225 | bytes after a dictionary that parses never change the result |
| `TensorRoundTrip.PrefixRejected` | csrc/src/s3_manager.cpp:134-225 | every strict prefix of a serialised dictionary is rejected |
| `GpuLayout.AlignUp` | csrc/src/s3_manager.cpp:36-41 | the least multiple not below the size; the size itself for block size zero |
| `GpuLayout.ComputeAlignedObjectOffsets` | csrc/src/s3_manager.cpp:380-396 | fails for alignment zero; else offsets are aligned, ranges disjoint and gaps shorter than the alignment |
| `GpuLayout.TotalSize` | csrc/src/s3_manager.cpp:1093-1097 | the total is the end of the furthest object |
| `GpuLayout.HostOffsets` | csrc/src/s3_manager.cpp:1076-1089 | host objects are 4096-aligned, disjoint and inside the total |
| `GpuLayout.HostArena.Place` | csrc/src/s3_manager.cpp:1103-1116 | a batch is in the buffer exactly when the buffer is large enough, at the cursor if it fits there and at the front otherwise |
| `GpuLayout.GpuArena.Reallocate` | csrc/src/s3_manager.cpp:957-975 | a failed allocation leaves no memory and the old capacity |
| `GpuLayout.GpuArena.Allocate` | csrc/src/s3_manager.cpp:946-987 | the block is aligned and inside the capacity, at the aligned cursor if it fits there and at the front otherwise, with the capacity unchanged unless the arena grows; exactly when the arena stays sound |
| `GpuLayout.EarlierBlockSurvives` | csrc/src/s3_manager.cpp:974-987 | a block below the cursor is apart from the next one exactly if that fits behind the cursor or ends before the block |
| `GpuLayout.RunApartIffFits` | csrc/src/s3_manager.cpp:974-987 | the same for any sizes and capacity |
| `GpuLayout.AllocateRun` | csrc/src/s3_manager.cpp:974-987 | blocks allocated one after the other from the front are pairwise apart exactly if their aligned sizes together fit the arena |
| `GpuLayout.BlocksOverlap` | csrc/src/s3_manager.cpp:979-984 | two blocks that do not fit together overlap although both were handed out |
| `GpuLayout.PointerWithoutMemory` | csrc/src/s3_manager.cpp:957-987 | a pointer handed out by an arena that has no memory |
| `GpuLayout.CopyObjects` | csrc/src/s3_manager.cpp:1127-1152 | every chosen object ends up whole in its range and no byte outside the batch changes |
| `GpuLayout.Upload` | csrc/src/s3_manager.cpp:1219-1241 | every downloaded object is whole in its range on the device and no byte outside the block changes |
| `GpuLayout.BatchLoad` | csrc/src/s3_manager.cpp:1054-1284 | fails to parse exactly when some object does not parse; else host and device hold every object whole with its views over it, in blocks at the next place of each arena, and the rest of both arenas stays unless the device arena grows |
| `GpuLayout.TwoLoads` | csrc/src/s3_manager.cpp:1054-1284 | of two loads without growth the device blocks are apart exactly if the second fits behind the first or ends before it, and then every view of the first still shows its tensor |
| `GpuLayout.DeviceView` | csrc/src/s3_manager.cpp:1252-1281 | every non-empty tensor view is 256-byte aligned, inside the arena and its object, holds exactly its bytes, and overlaps no other tensor or object |
| `HybridStore.HybridBackend.Contains` | catkv-vllm/lmcache/storage_backend/hybrid_backend.py:79-83 | answers as the remote store alone |
| `HybridStore.HybridBackend.Put` | catkv-vllm/lmcache/storage_backend/hybrid_backend.py:85-95 | writes through, whatever the local store loses, and keeps local inside remote |
| `HybridStore.HybridBackend.Get` | catkv-vllm/lmcache/storage_backend/hybrid_backend.py:97-107 | answers as the remote store alone and leaves it unchanged |
| `HybridStore.HybridBackend.BatchedGet` | catkv-vllm/lmcache/storage_backend/hybrid_backend.py:109-134 | answers every position, repeats included, as the remote store alone |
| `HybridStore.HybridBackend.BatchedPut` | catkv-vllm/lmcache/storage_backend/abstract_backend.py:84-107 | the remote store is the old one with the pairs written in order |
| `HybridStore.LastWriteStays` | catkv-vllm/lmcache/storage_backend/abstract_backend.py:84-107 | the last value written to a key stays, and keys not written keep what they had |
| `PrefixCache.LMCacheEngine.ChunkTokens` | catkv-vllm/lmcache/cache_engine.py:76-92 | the loop computes the specified chunks |
| `PrefixCache.ChunksCut` | catkv-vllm/lmcache/cache_engine.py:76-92 | chunk i is the tokens from i times the size up to the next multiple or the end, and nothing is left over |
| `PrefixCache.LMCacheEngine.PrefixHash` | catkv-vllm/lmcache/cache_engine.py:94-104 | the hash chain over the chunks without the skipped ones |
| `PrefixCache.SkipHashes` | catkv-vllm/lmcache/cache_engine.py:94-104 | the hashes after k chunks are those of the remaining tokens, continued from a hash that stands for the first k chunks |
| `PrefixCache.LMCacheEngine.MakeChunks` | catkv-vllm/lmcache/cache_engine.py:194-249 | exactly the chunks from the first missing one on, each under its own hash |
| `PrefixCache.LMCacheEngine.Store` | catkv-vllm/lmcache/cache_engine.py:305-332 | which of the three assertions fails, written out; if none does exactly those chunks are written |
| `PrefixCache.StoreWrites` | catkv-vllm/lmcache/cache_engine.py:194-332 | after a store every chunk from the first missing one on holds its rows, or every chunk if existing ones are not skipped; the chunks before it hold what they held, and no other key changes |
| `PrefixCache.LMCacheEngine.Retrieve` | catkv-vllm/lmcache/cache_engine.py:376-454 | returns exactly the KV of the tokens from the mask's end to the first missing chunk, with the mask true exactly there |
| `PrefixCache.LMCacheEngine.Lookup` | catkv-vllm/lmcache/cache_engine.py:469-480 | the number of leading tokens whose chunks are all cached |
| `PrefixCache.CachedTokens` | catkv-vllm/lmcache/cache_engine.py:469-480 | that number is the size times the chunks before the first missing one, or all tokens |
| `PrefixCache.LookupAgrees` | catkv-vllm/lmcache/cache_engine.py:469-480 | an unmasked retrieval ends where lookup says |
| `PrefixCache.StoreKeepsSound` | catkv-vllm/lmcache/cache_engine.py:305-332 | storing the KV of a prompt keeps every cached chunk equal to the KV of its tokens |
| `PrefixCache.StoreCovers` | catkv-vllm/lmcache/cache_engine.py:194-225 | a prompt just stored is cached to its end |
| `PrefixCache.RunSound` | catkv-vllm/lmcache/cache_engine.py:305-332 | after every run of stores, retrievals and evictions every cached chunk is right |
| `PrefixCache.RunEngine` | catkv-vllm/lmcache/cache_engine.py:305-454 | a run of stores, retrievals and evictions through an engine and its hybrid backend: the remote store ends as specified and every retrieval on the way returned the KV of its tokens up to the first missing chunk |
| `BlendRetriever.SPTBlendRetrieverTask.WaitForResult` | catkv-vllm/lmcache/blend/retriever.py:85-154 | succeeds exactly when there are segments and none is empty; every token then has its retrieved rows, position and mask, or undefined rows; there are tensors exactly when anything was retrieved |
| `BlendRetriever.SPTBlendRetrieverTask.Collect` | catkv-vllm/lmcache/blend/retriever.py:106-126 | the first loop, with the error of an empty segment |
| `BlendRetriever.SPTBlendRetrieverTask.Patch` | catkv-vllm/lmcache/blend/retriever.py:142-154 | missing segments get undefined rows of their length |
| `BlendExecutor.CacheBlendImpl.SelectTokensAllQueries` | catkv-vllm/lmcache/blend/executor.py:113-172 | appends the invalid and the top-k tokens of all queries in increasing order; the new start locations cut what was appended exactly into the selections of the queries |
| `BlendExecutor.BetweenMeaning` | catkv-vllm/lmcache/blend/executor.py:149-166 | the selected indices are strictly increasing, inside their range and exactly the masked tokens |
| `BlendExecutor.BuildPositions` | catkv-vllm/lmcache/blend/executor.py:105-111 | a token's position is its distance from the start of its query |
| `BlendExecutor.CacheBlendImpl.Blend` | catkv-vllm/lmcache/blend/executor.py:216-300 | layers 0 and 1 pass fresh rows on, layer 1 failing exactly on an index out of range; deeper layers return the queries as they came and fail exactly on a count mismatch or such an index, else indexed rows are fresh, the last row winning, and the others are the retrieved rows: a key that stands for a row encoded at its original position comes back as that row encoded at its query position, if decoding undoes encoding |
| `BlendExecutor.CacheBlendImpl.BlendDeep` | catkv-vllm/lmcache/blend/executor.py:255-300 | the branch for deeper layers, for any indexes, repeated or unordered, with V updated in place; every kept key is carried from its original to its query position |
| `BlendExecutor.SecondPass` | catkv-vllm/lmcache/blend/executor.py:164-253 | a second pass fails exactly if a first index is outside the second batch; else layer 1 hands on both selections, with start locations that agree exactly if the first was empty, and deeper layers are complete with every kept key carried to its query position |
| `BlendExecutor.NothingUndefined` | catkv-vllm/lmcache/blend/executor.py:229-300 | whatever indexes earlier passes left, the selected tokens hold their fresh rows and no undefined row survives in K or V |
| `BlendExecutor.BlendPass` | catkv-vllm/lmcache/blend/executor.py:216-300 | over all layers every row is defined, and each reused key is carried from its segment position to its query position: the row encoded at the one comes back encoded at the other |
| `SlotPool.StepConserves` | catkv-transformers/catkv/kv_manager/offload_worker.py:139-175 | each slot is in one place plus one per late raise, kept by every step |
| `SlotPool.OnePlaceIffNoLateRaise` | catkv-transformers/catkv/kv_manager/offload_worker.py:139-175 | on every run slots are in exactly one place if and only if no handler raised after handing back |
| `SlotPool.ClonesAreWhatWasSubmitted` | catkv-transformers/catkv/kv_manager/offload_worker.py:169-175 | on every run without late raises each clone is the data its submitter copied |
| `SlotPool.CloneIsLastCopy` | catkv-transformers/catkv/kv_manager/offload_worker.py:169-175 | on every run a clone starts with the rows last copied into its slot; where those reach, it is its own submitter's data exactly if they start with it |
| `SlotPool.EarlierRequestsTaken` | catkv-transformers/catkv/kv_manager/offload_worker.py:510-528 | once a worker has exited, every request put before the first shutdown message was taken |
| `SlotPool.ExitsMatchShutdowns` | catkv-transformers/catkv/kv_manager/offload_worker.py:510-528 | exits and shutdown messages still queued add up to the messages sent |
| `SlotPool.NothingLeaks` | catkv-transformers/catkv/kv_manager/offload_worker.py:342-359 | no slot is lost on a run whose submissions fit a buffer |
| `SlotPool.OversizeLosesSlot` | catkv-transformers/catkv/kv_manager/offload_worker.py:342-359 | a longer submission takes its slot out of circulation for good |
| `SlotPool.LateRaiseMixesRequests` | catkv-transformers/catkv/kv_manager/offload_worker.py:158-162 | a concrete run in which one late raise makes a worker clone another request's data |
| `KeySvIndex.KvManager.SplitPayloads` | catkv-transformers/catkv/kv_manager/kv_manager.py:269-311 | every payload with its paths, and for the shared path the first candidate of largest rank |
| `KeySvIndex.KvManager.StoreMultiData` | catkv-transformers/catkv/kv_manager/kv_manager.py:265-322 | every chunk's other part and the right key_sv part are stored, the last one where a hash is repeated, and no other object changes |
| `KeySvIndex.Group.SharedIsCommon` | catkv-transformers/catkv/kv_manager/utils.py:36-39 | above layer 2 all chunks of a group share one path, different from any chunk's own |
| `KeySvIndex.NamesWritten` | catkv-transformers/catkv/kv_manager/utils.py:9-39 | the file names of a chunk, its own and its shared key_sv part, written out |
| `KeySvIndex.KeysDiffer` | catkv-transformers/catkv/kv_manager/utils.py:9-12 | file names of different chunks or layers differ, whatever the hashes look like |
| `KeySvIndex.MemberApart` | catkv-transformers/catkv/kv_manager/utils.py:9-39 | a call for another layer, or for another group without the chunk, writes none of the chunk's paths |
| `KeySvIndex.MemberKept` | catkv-transformers/catkv/kv_manager/kv_manager.py:312-322 | a stored chunk survives such a call, whether or not other chunks of its group do |
| `KeySvIndex.ContextManager.BuildIndex` | catkv-transformers/catkv/kv_manager/context_manager.py:190-219 | each chunk's index entry names the first chunk with the same uuid and that uuid's path id; -1 beyond the fetched data |
| `KeySvIndex.ContextManager.KeySvPaths` | catkv-transformers/catkv/kv_manager/context_manager.py:147-171 | the key_sv paths to fetch, one per index entry above layer 2 |
| `KeySvIndex.ContextManager.Merge` | catkv-transformers/catkv/kv_manager/context_manager.py:221-246 | joins each other part with the key_sv it points to, empty where either is missing |
| `KeySvIndex.FetchedIsWritten` | catkv-transformers/catkv/kv_manager/context_manager.py:158-168 | the path fetched for a uuid is the one its group was stored under and holds the key_sv of largest rank |
| `KeySvIndex.ContextManager.GetReuseKv` | catkv-transformers/catkv/kv_manager/context_manager.py:177-246 | every requested chunk in the store, repeats included, comes back as its own other part with its group's key_sv; one whose other part is missing comes back empty |
| `KeySvReuse.SaveAll` | catkv-transformers/catkv/kv_manager/context_manager.py:85-106 | after saving one prompt after another, overlapping or not, every chunk is stored at every layer as the last prompt with it left it |
| `KeySvReuse.SaveThenReuse` | catkv-transformers/catkv/kv_manager/context_manager.py:85-246 | prompts saved at every layer, the index built from the uuids fetched at layer 1, any layer fetched: a requested chunk comes back exactly if it was saved, as the last prompt with it left it |
| `Quantizer.ClampCommutes` | csrc/src/compressor.cpp:143-144 | clamping before rounding and rounding before clamping agree for every real |
| `Quantizer.SqCompressRow` | csrc/src/compressor.cpp:437-471 | for a row of any width: the scale is its least and greatest value, both attained; every column is in its nibble, the least value as 0, the greatest as 15 exactly if the row is wider than 0.000029, every value within half a step |
| `Quantizer.SqCompress` | csrc/src/compressor.cpp:399-552 | the same for every row |
| `Quantizer.PackedAt` | csrc/src/compressor.cpp:146-155 | each byte holds one code above another, or above zero where an odd row ends |
| `Quantizer.Nibbles` | csrc/src/compressor.cpp:467 | shifting and or-ing two codes is their arithmetic packing and loses neither |
| `Quantizer.UnpackRecovers` | csrc/src/fused_dequant_kernel.cu:55-59 | unpacking gives back every code of a row |
| `Quantizer.CodesMonotone` | csrc/src/compressor.cpp:132-144 | larger values never get smaller codes |
| `Quantizer.GreatestCode` | csrc/src/compressor.cpp:132-144 | the greatest value of a row gets the code 15 exactly if the row is wider than 0.000029 |
| `Quantizer.RowErrorBound` | csrc/src/fused_dequant_kernel.cu:61-72 | decoding errs by at most (max-min)/30 + 1e-6 in every column of every row |
| `RankBudget.MultiRankBounds` | csrc/src/compressor.cpp:79-104 | the candidate rank is within the tokens and its cap, fits the bytes, and is the largest such unless one of these stops it |
| `RankBudget.MultiRankBits` | csrc/src/compressor.cpp:79-104 | the same with tokens, bytes, bits per rank and caps written out |
| `RankBudget.AllocationFits` | csrc/src/compressor.cpp:106-130 | ranks are non-negative and within budget; the fallback is taken exactly when the high rank alone is too dear and strictly lowers it to the largest that fits |
| `RankBudget.AllocationBits` | csrc/src/compressor.cpp:106-130 | the same with the bits of both kinds of rank written out |
| `RankBudget.LowRankMaximal` | csrc/src/compressor.cpp:106-130 | the low rank is maximal beside the high rank returned exactly when the high rank fits or less than one low rank is left over |
| `RankBudget.FallbackLeavesRoom` | csrc/src/compressor.cpp:122-127 | a budget for 64 tokens for which the fallback hands out no low rank although one fits |

## Left out

- libcurl, HTTP, request signing, CUDA streams and thread creation: only their effect on memory or order is modelled.
- Allocation failures of host memory and huge length fields of malformed objects: the parser model fails later, with the end-of-buffer error.
- Failed downloads of a batch: a load is modelled from the bytes it received.
- 64-bit overflow of offsets and byte counters: sizes are unbounded, except the tensor byte size, which wraps as in the code.
- SVD, QR, elbow search, attention and RoPE kernels: RoPE is an abstract row function that is the identity between equal positions.
- Waiting with timeouts (`WaitReady`, `WaitAll`), queue statistics and tracing: no effect on the modelled state.
- The pipelined remote backend and non-blocking puts of the prefix cache: the hybrid backend is modelled over blocking puts.
- Lost notifications: a thread whose wait predicate holds can run.
- The order of writes to one index: where a blend index is repeated the tensor library leaves it
  open, and the model writes the rows in order.
- A remote store of the prefix cache that loses entries the local store keeps: what the remote store loses, the
  local store loses with it.
- Uuid collisions: two prompts with one uuid have the same list of chunk hashes, and a missing object is read as an
  empty payload.
- Hash collisions and the format part of cache keys: chunk hashes are free terms and an engine uses one format.
- The scores behind the top-k choice of CacheBlend: any choice of tokens is allowed.
- The legacy path of the offload workers without a buffer pool: it carries tensors in the message and has no slots.
- The reclaimer stopping at shutdown: slots then simply stay in the done queue.
- RunsAreFinite: does not count condition-variable wake-ups and polls that change nothing, because they are no steps here.
- SqCompress: does not model float and bfloat16 rounding, because codes and scales are exact reals here.
- RowErrorBound: does not model the kernel's intermediate rounding to the scalar type.
- RetrieveLayer: does not model the pinning and events of the storage manager, only which layers reach paged memory.
- LayerLoader.Finish: does not claim that the last flush is synchronised, because the code does not wait for it.
- BatchLoad: does not say that views of an earlier batch stay intact when the device arena grows, because its memory is then freed.
- CloneIsLastCopy: does not say when a clone longer than the last copy equals its own data, because its end is what older copies left.
