# Weight movement and layout in verl, modelled in Dafny

This project models the parts of verl that move model weights between processes and lay them out in
memory and on disk, and proves what those parts promise: that every weight arrives once, in order and
with its own bytes, and that a buffer is never written while somebody still reads it.

Check everything with `dafny verify dfyconfig.toml` (Dafny 4.11). The sources are cited by path and line.

## What is modelled

**The NIXL relay** (`Packing`, `NixlAgents`, `NixlRelay`, `NixlInvariant`, `NixlSteps`, `NixlLinks`,
`NixlTheorems`, `NixlTermination`, `Topology`). Rank 0 packs weights into byte buckets; ranks 1..R form a
chain. Each rank reads a bucket from its predecessor, offers the bucket before to its successor and
hands out tensors, all at once and with two buffers. The model is a step system: one program statement
between two awaits, one envelope taken from a socket, one poll for notifications, or one piece of a
background transfer. Any interleaving is a run, for any number of ranks, weights and bytes. A transfer
copies the source buffer as it is at that moment, in pieces of any size, so only the protocol keeps the
bytes intact. One invariant (`NixlInvariant.Inv`) gives in-order delivery, buffer safety, absence of
deadlock and a bound on the length of every run.

**Broadcast engines** (`Broadcast`, `KimiShards`, `KimiReceive`). The NCCL and HCCL engines share the packing;
the sender's and the receiver's loops are methods over two byte arrays. On the sending side a collective in
flight is an object whose transport reads the buffer byte by byte at moments of its own choosing; on the receiving
side the buffer may change arbitrarily until the collective completes.
The KIMI engine adds round-robin sharding, a schedule of collectives and a buffer of two halves.

**Activation offload** (`OffloadWindows`, `OffloadState`, `OffloadRecovery`, `ActivationOffload`,
`TrainingStep`). The handler is a
class with the fields of the original. A whole training step, L forward and L backward commits with any
activations, any of them offloaded and asked for in any order, gives every layer's backward the tensors that its
forward saved, exactly when equal keys mean equal elements.

**Checkpoint layout** (`PipelineShards`, `QkvLayout`, `LayerNumbering`, `ShardFiles`, `ExpertPartition`,
`MoeStacking`, with `Tensors`). Splitting layers over stages, interleaving and splitting grouped q, k, v,
renumbering layers, numbering shard files, distributing and stacking experts. `CheckpointIsComplete` follows a
tensor from a chunk of a pipeline rank through the merge and the files to the index.

**Batches and parallel loading** (`DataProto`, `ParallelLoad`, `ParallelInit`, `ParallelSlots`). Slicing, chunking,
concatenating and padding of batches; the agreement between ranks on who broadcasts which parameter, and which
parameter each slot of the modules gets.

**Geometry and statistics** (`BboxResize`, `GroupStats`), over exact reals.

`Prelude` holds the types that all modules share; `Arithmetic` and `RealArithmetic` hold facts about products and
quotients.

## Assumptions

- Sockets and notifications are reliable and first-in first-out for each sender. A collective completes only
  when every rank takes part, and all ranks then have the source's data.
- Work queued on a device stream is complete at the synchronisation points of the program.
- `uuid4` notify keys are modelled as the owner's rank and a serial number, so keys are fresh.
- Parameter names are datatypes (`LayerNumbering.Key`, `MoeStacking.Key`) or plain strings; tensors are
  sequences of bytes, of rows or of elements.

## Where the code is narrower than its description

- `get_dynamic_pipeline_shards` accepts more layers than stages, but finds no candidate for some such inputs
  and indexes an empty list, for example for 5 layers over 4 stages. `GetDynamicPipelineShards` states the
  exact condition, `FiveOverFourFails` the example.
- The NIXL `build_topology` builds a successor list of the wrong length for a single rollout worker, because a
  slice from -0 is the whole list. `LengthContract` states that it needs a trainer and two rollout workers.
- A bucket's metadata is a dictionary: of two weights with one name in one bucket only the last arrives.
  `DecodeRestoresWeights`, `ExactDelivery` and, for the KIMI engine, `NamedTensorBuckets` state delivery if and only
  if that does not happen.
- Offloaded activations are found again by address and dtype. Two views that start together and differ in
  extent share that key, and one of them is not restored (`OverlappingViewsBreakRecovery`) or its reload fails; a
  group, and a whole training step, recovers if and only if equal keys mean equal elements (`RecoveryIsExact`,
  `TrainStep`). With every layer offloaded only the first layer's tensors ever leave the device, as the copy of each
  other layer is made before it has run (`AllRestoredIsExact`).
- A pipeline chunk without layers still counts as one layer when layers are renumbered (`NumberingIsExact`,
  `EmptyChunkLeavesGap`).
- Experts beyond a multiple of the number of expert-parallel ranks are copied by no rank (`AllCopied`); the check
  on the number of elements in the DeepSeek-V3 conversion fails exactly then (`CountCheckIsExact`). With fewer
  experts than ranks no rank copies any, and `numel_w2` is read before it is assigned (`CopyAndCheck`).
- `moe_split` reads `num_experts` only, while `moe_merge` also accepts `n_routed_experts` (`MoeSplit`), and stacked
  keys that were there before merging do not survive (`SplitUndoesMerge`).
- A box whose aspect ratio is just allowed can be rejected after rounding (`RoundingCanReject`). `AcceptedIsExact`
  states for every box and image when that happens; up to a ratio of 2799 / 28 room for 28 pixels suffices
  (`RoomIsEnough`).
- Without a tensor batch the non-tensor columns of a `DataProto` may differ in length. Slices are taken of each column,
  so splitting loses rows of a longer column and removing padding loses rows of a shorter one; `ConcatUndoesSplit`
  and `UnpadUndoesPad` state exactly when.
- With padding enabled, `DataProto.chunk` still fails when `torch.chunk` gives fewer pieces than requested
  (`ConcatUndoesChunks`).
- `get_notification` reassigns the name it waits for while filing a batch; it answers for that other agent
  (`GetNotification`). In the relay this is harmless, because only the successor ever notifies (`OneOfferInFlight`).

## Model

| member | source | states |
|---|---|---|
| `Packing.PackingIsLossless` | verl/checkpoint_engine/nixl_checkpoint_engine.py:384-421 | with distinct names the buckets partition the weight list in order, and the byte ranges in each bucket are contiguous, disjoint and start at 0 |
| `Packing.DecodeRestoresWeights` | verl/checkpoint_engine/nixl_checkpoint_engine.py:384-421 | decoding all buckets gives back the weight list if and only if no bucket is given a name twice |
| `Packing.BucketsWithinCapacity` | verl/checkpoint_engine/nixl_checkpoint_engine.py:389-412 | no bucket is larger than the bucket size when every weight fits |
| `Packing.BucketsAreFull` | verl/checkpoint_engine/nixl_checkpoint_engine.py:389-408 | every bucket but the last ends where the next weight would have made it larger than the bucket size, and the next bucket begins with that weight |
| `Packing.BucketsInBounds` | verl/checkpoint_engine/nccl_checkpoint_engine.py:258-269 | every tensor's byte range lies within its bucket's data |
| `Packing.ClosedBucket` | verl/checkpoint_engine/nixl_checkpoint_engine.py:389-408 | a bucket closed because the next weight does not fit is the next one on the wire and not the last |
| `Packing.ItemFromBuffer` | verl/checkpoint_engine/nixl_checkpoint_engine.py:475-479 | a buffer that begins with a bucket's data yields that bucket's tensors, whatever follows |
| `Packing.DuplicateNameLosesTensor` | verl/checkpoint_engine/nixl_checkpoint_engine.py:414-419 | two weights of one name in one bucket: only the second arrives |
| `NixlAgents.NixlAgent.ReadMessage` | verl/checkpoint_engine/nixl_checkpoint_engine.py:122-126 | returns the oldest unread message of the named agent and moves no other agent's messages in or out |
| `NixlAgents.NixlAgent.GetNotification` | verl/checkpoint_engine/nixl_checkpoint_engine.py:128-134 | returns the oldest notification of the awaited agent, or of the agent that the reassigned name ends up with, and loses none of the others' |
| `NixlAgents.RecvKeepsPending` | verl/checkpoint_engine/nixl_checkpoint_engine.py:123-125 | filing an envelope changes no sender's unread messages |
| `NixlAgents.PollKeepsPending` | verl/checkpoint_engine/nixl_checkpoint_engine.py:129-132 | filing a batch of notifications changes no sender's unread notifications |
| `NixlLinks.StepKeepsInv` | verl/checkpoint_engine/nixl_checkpoint_engine.py:364-519 | every step of every rank, socket, poll or transfer keeps the invariant of all ranks and links |
| `NixlLinks.RunKeepsInv` | verl/checkpoint_engine/nixl_checkpoint_engine.py:364-519 | the invariant holds in every state of every run |
| `NixlTheorems.YieldsArePrefixes` | verl/checkpoint_engine/nixl_checkpoint_engine.py:434-513 | in every reachable state what a receiver has yielded is a prefix of the decoded buckets, and all of them once it is done |
| `NixlTheorems.InOrderDelivery` | verl/checkpoint_engine/nixl_checkpoint_engine.py:364-519 | with distinct names, each receiver's yields are always a prefix of rank 0's weights, names, shapes, dtypes and bytes, and equal them at completion |
| `NixlTheorems.ExactDelivery` | verl/checkpoint_engine/nixl_checkpoint_engine.py:364-519 | a finished receiver has exactly the weights if and only if no bucket was given a name twice |
| `NixlTheorems.BufferSafety` | verl/checkpoint_engine/nixl_checkpoint_engine.py:387-431 | no rank fills or reads into a buffer it has on offer, that its successor has been told to read or is reading, or that it is yielding from |
| `NixlTheorems.OneOfferInFlight` | verl/checkpoint_engine/nixl_checkpoint_engine.py:150-168 | the key assertion never fails; an outstanding offer is in exactly one place: message, transfer or acknowledgement; only the successor notifies |
| `NixlTheorems.NoDeadlock` | verl/checkpoint_engine/nixl_checkpoint_engine.py:364-519 | a reachable state without a next step has every rank finished, unless rank 0 has met a weight larger than the bucket size |
| `NixlTermination.StepDecreases` | verl/checkpoint_engine/nixl_checkpoint_engine.py:364-519 | every step decreases a measure of the buckets, tensors and bytes still to handle |
| `NixlTermination.RunsAreBounded` | verl/checkpoint_engine/nixl_checkpoint_engine.py:364-519 | every run is at most as long as the measure of its first state |
| `NixlTermination.EveryReceiverGetsEverything` | verl/checkpoint_engine/nixl_checkpoint_engine.py:364-519 | when names are distinct and every weight fits, any run that can go no further has given every receiver exactly the weights |
| `Topology.LengthContract` | verl/checkpoint_engine/nixl_checkpoint_engine.py:282-299 | the lists have the lengths that the manager asserts if and only if there is a trainer and there are at least two rollout workers |
| `Topology.OneChain` | verl/checkpoint_engine/nixl_checkpoint_engine.py:282-299 | each rank's successor and predecessor are the neighbours in the one chain 0, 1, ..., R, its ends point nowhere, and each rank is told R + 1 ranks |
| `Topology.OthersAreIdle` | verl/checkpoint_engine/nixl_checkpoint_engine.py:285-291 | the other trainers have rank -1, R + 1 ranks and no neighbours |
| `Topology.LinksAreInverse` | verl/checkpoint_engine/nixl_checkpoint_engine.py:288-297 | j is the successor of i if and only if i is the predecessor of j |
| `Topology.EveryWorkerInitialises` | verl/checkpoint_engine/nixl_checkpoint_engine.py:312-325 | no worker's assertion on its neighbours fails; rank 0 meets that of the source, ranks 1, ..., R - 1 that with both neighbours and rank R that of the end |
| `Topology.AssertsAreExact` | verl/checkpoint_engine/nixl_checkpoint_engine.py:312-325 | a rank's assertion holds exactly with a predecessor for all but the first of the chain and a successor for all but the last |
| `Broadcast.SendWeights` | verl/checkpoint_engine/nccl_checkpoint_engine.py:236-291 | succeeds exactly when every weight fits; although the transport may read any byte of the buffer in flight at any moment, each message is delivered as it was when its broadcast started, and together they are all buckets, each once, the last marked |
| `Broadcast.ReceiveWeights` | verl/checkpoint_engine/nccl_checkpoint_engine.py:302-353 | yields the tensors of every message once and in order; the views still show them after the next broadcast has filled the other buffer |
| `Broadcast.BroadcastDelivers` | verl/checkpoint_engine/hccl_checkpoint_engine.py:242-359 | what every receiving rank yields is the sender's weight list if and only if no bucket is given a name twice |
| `KimiShards.EveryWeightIsKept` | verl/checkpoint_engine/kimi_checkpoint_engine.py:49-51 | weight i is entry i / world of the share of rank i % world |
| `KimiShards.NothingElseIsKept` | verl/checkpoint_engine/kimi_checkpoint_engine.py:49-51 | entry j of a rank's share is weight world * j + rank |
| `KimiShards.NamedTensorBuckets` | verl/checkpoint_engine/kimi_checkpoint_engine.py:37-63 | ValueError exactly for a bucket size of at most 0; each bucket is within the limit or a single tensor; the buckets are the rank's share in order if and only if no bucket is given a name twice, and then none could have taken one tensor more |
| `KimiShards.DistinctNamesNotTwice` | verl/checkpoint_engine/kimi_checkpoint_engine.py:47-60 | with distinct names no bucket is given a name twice |
| `KimiReceive.RowsAreOwn` | verl/checkpoint_engine/kimi_checkpoint_engine.py:98-110 | each receiver has one row, which lists its own buckets in order |
| `KimiReceive.OwnInOrder` | verl/checkpoint_engine/kimi_checkpoint_engine.py:98-102 | a bucket assigned to a rank is in its list, behind exactly the buckets assigned to it before |
| `KimiReceive.RowsInOrder` | verl/checkpoint_engine/kimi_checkpoint_engine.py:104-110 | rows are in the order in which their receivers are first assigned a bucket |
| `KimiReceive.TransferAt` | verl/checkpoint_engine/kimi_checkpoint_engine.py:114-127 | bucket i of row j is broadcast, from its receiver, in its place among the collectives |
| `KimiReceive.PlacesIncrease` | verl/checkpoint_engine/kimi_checkpoint_engine.py:114-127 | those places follow the rounds, and within a round the rows |
| `KimiReceive.EachBucketOnce` | verl/checkpoint_engine/kimi_checkpoint_engine.py:104-137 | every assigned bucket is broadcast by its receiver exactly as often as it is assigned |
| `KimiReceive.RunRound` | verl/checkpoint_engine/kimi_checkpoint_engine.py:114-155 | one round takes part in the collectives of its rows in order, a rank sending its own buckets and taking from the others what they bring, and yields before each of them the bucket before it, unharmed by arbitrary changes to the half that is being received |
| `KimiReceive.ReceiveTensor` | verl/checkpoint_engine/kimi_checkpoint_engine.py:98-166 | on every rank the collectives are those of the plan, its own buckets sent and all others taken as the collectives bring them, and the tensors of each are yielded once, in that order; fails exactly when nothing is assigned |
| `KimiReceive.EveryRankReceives` | verl/checkpoint_engine/kimi_checkpoint_engine.py:66-166 | when all ranks run and a collective gives every rank the bucket of its source, every rank has received exactly the assigned buckets, in one order, and yields the same tensors |
| `OffloadWindows.WindowsIncrease` | verl/utils/activation_offload.py:250-257 | the window map is strictly increasing |
| `OffloadWindows.WindowSpans` | verl/utils/activation_offload.py:250-257 | the windows divide the layers: each spans layers / groups of them, and the first layers % groups one more |
| `OffloadWindows.WindowAfterOwnLayer` | verl/utils/activation_offload.py:250-257 | group i's window closes at layer i or later, and strictly later when fewer groups than layers are offloaded |
| `OffloadWindows.LastWindow` | verl/utils/activation_offload.py:250-257 | the last window closes with the last layer |
| `OffloadWindows.TightWindows` | verl/utils/activation_offload.py:250-257 | offloading all layers but one closes each window one layer after its own |
| `OffloadState.RecoveryIsExact` | verl/utils/activation_offload.py:298-317 | every tensor gets its own elements back if and only if tensors with equal keys hold equal elements |
| `OffloadState.OverlappingViewsBreakRecovery` | verl/utils/activation_offload.py:35-37 | two views that start together but differ in extent: one of them is not restored |
| `OffloadState.PushKeeps` | verl/utils/activation_offload.py:271-280 | pushing any tensor keeps the invariant, and the new tag is not in use |
| `OffloadState.OnDeviceWhenNeeded` | verl/utils/activation_offload.py:285-296 | in the backward pass a layer's tensors are on the device, with the values due back, when its turn comes |
| `OffloadState.ForwardKeeps` | verl/utils/activation_offload.py:319-352 | a forward commit keeps every tensor recoverable: those of a group that is copied as the copy with their key, all others as they were |
| `OffloadState.BackwardKeeps` | verl/utils/activation_offload.py:354-395 | a backward commit changes nothing of what is due back |
| `OffloadState.WindowToLookUp` | verl/utils/activation_offload.py:330-330 | the window map has an entry for the group that a forward commit looks up |
| `OffloadState.ReloadIsDefined` | verl/utils/activation_offload.py:381-387 | the window and the host copy that a backward commit looks up exist |
| `OffloadState.AtMostTwoGroups` | verl/utils/activation_offload.py:500-504 | offloading all layers but one, only two groups ever have a tensor on the device |
| `OffloadState.PassRestores` | verl/utils/activation_offload.py:392-395 | after a full pass the fields are those of a new handler |
| `OffloadRecovery.ForwardAccords` | verl/utils/activation_offload.py:298-352 | a forward commit keeps what is due back in accord with what was pushed: the same, but for groups copied out, which come back as copies, one for each key, of their own tensors |
| `OffloadRecovery.AllRestoredIsExact` | verl/utils/activation_offload.py:298-371 | after the forward pass everything is due back as it was pushed if and only if equal keys mean equal elements in each group that leaves the device: all offloaded groups, or only the first when every layer is offloaded |
| `ActivationOffload.OffloadHandler.constructor` | verl/utils/activation_offload.py:228-261 | the window map has the closed form of `WindowEnd` for every group, and the invariant holds |
| `ActivationOffload.OffloadHandler.TensorPush` | verl/utils/activation_offload.py:263-283 | files the tensor under a new tag, or returns it when it is not to be offloaded |
| `ActivationOffload.OffloadHandler.TensorPop` | verl/utils/activation_offload.py:285-296 | returns what is due back, and the assertion that it is not a host copy holds |
| `ActivationOffload.OffloadHandler.BulkOffloadGroup` | verl/utils/activation_offload.py:298-317 | the group's tensors are replaced by key and shape, and the host has one copy for each key |
| `ActivationOffload.OffloadHandler.BulkReloadGroup` | verl/utils/activation_offload.py:354-371 | fails exactly when a copy does not have the elements that a tensor's shape asks for; otherwise the group's tensors are back on the device with the shape and elements of their host copies, which are dropped |
| `ActivationOffload.OffloadHandler.OnGroupCommitForward` | verl/utils/activation_offload.py:319-352 | every lookup is defined and the invariant is kept |
| `ActivationOffload.OffloadHandler.OnGroupCommitBackward` | verl/utils/activation_offload.py:373-395 | every lookup is defined; fails exactly when the reload it makes fails, and otherwise keeps the invariant |
| `TrainingStep.TrainStep` | verl/utils/activation_offload.py:111-131 | for any number of offloaded groups, any choice of tensors to offload and any order in which each backward asks for them: the pass succeeds and restores every activation if and only if equal keys mean equal elements within each layer whose tensors leave the device; a pass that succeeds ends in the state it began with |
| `PipelineShards.GetDynamicPipelineShards` | verl/model_merger/megatron_model_merger.py:57-98 | succeeds exactly when the smallest possible middle size leaves two layers for the ends; the stages sum to the layers and the middle size is the ceiling of layers over stages |
| `PipelineShards.FeasibleRange` | verl/model_merger/megatron_model_merger.py:78-83 | the middle sizes the search keeps are those from the ceiling of layers over stages on that leave at least two layers |
| `PipelineShards.SmallestSize` | verl/model_merger/megatron_model_merger.py:78-95 | there is a candidate exactly when the ceiling is feasible, and that is the smallest |
| `PipelineShards.NoSplitIsMoreEven` | verl/model_merger/megatron_model_merger.py:65-65 | no split of the layers whatsoever has a smaller largest stage |
| `PipelineShards.ChosenSplitIsOptimal` | verl/model_merger/megatron_model_merger.py:65-65 | every chosen stage has between 1 and that least possible number of layers |
| `PipelineShards.ChosenSplitCovers` | verl/model_merger/megatron_model_merger.py:57-98 | the chosen split has one stage for each rank, none without a layer, and all layers |
| `PipelineShards.ChosenSplitShape` | verl/model_merger/megatron_model_merger.py:70-98 | for any number of stages every stage has between 1 and the ceiling of layers over stages, the middle ones exactly that, and the last has as many layers as the first or one more |
| `PipelineShards.FiveOverFourFails` | verl/model_merger/megatron_model_merger.py:96-96 | five layers over four stages have no candidate |
| `QkvLayout.SplitQkv` | verl/model_merger/megatron_model_merger.py:330-354 | succeeds exactly when the rows are whole groups of the given heads, and returns the q, k and v rows of all groups |
| `QkvLayout.SplitUndoesInterleave` | scripts/converter_hf_to_mcore.py:155-161 | splitting the interleaved tensor gives back q, k, v for all head counts, groups and head sizes |
| `QkvLayout.InterleaveUndoesSplit` | verl/model_merger/megatron_model_merger.py:330-354 | interleaving what was split gives back the tensor |
| `QkvLayout.MergeAcrossTp` | scripts/legacy_model_merger.py:530-558 | succeeds exactly when all chunks of all shards, of any size, have the rows that the first shard decides, for equal shards exactly when one rank's share is whole groups; returns the q, k and v rows of all chunks, for shards of whole groups those of splitting the unsharded tensor |
| `QkvLayout.EqualShardsMerge` | scripts/legacy_model_merger.py:530-558 | merging equal shards is splitting their concatenation by the groups that the ranks hold |
| `QkvLayout.ShardedRoundTrip` | scripts/legacy_model_merger.py:530-558 | merging the equal shards of an interleaved tensor, one for each rank, succeeds and gives back q, k, v whenever the ranks divide the groups |
| `QkvLayout.MergeGateUp` | scripts/legacy_model_merger.py:519-529 | fails exactly without shards or for a shard of one row, and otherwise collects the first and second halves of all shards |
| `QkvLayout.GatesAndUps` | scripts/legacy_model_merger.py:522-523 | each shard is its gate rows followed by its up rows, with one gate row more if their number is odd |
| `Tensors.ChunkIs` | scripts/legacy_model_merger.py:522-523 | the pieces that a tensor is cut into are the tensor, in order; all but the last have the rows over the number of pieces, rounded up, and the last has the rest |
| `QkvLayout.GateUpRoundTrip` | scripts/converter_hf_to_mcore.py:188-189 | the halves of stacked gate and up shards are the gate and up shards |
| `QkvLayout.VisionRoundTrip` | scripts/converter_hf_to_mcore.py:250-256 | splitting the permuted vision weight gives back its q, k, v parts |
| `QkvLayout.VisionIsInterleaved` | scripts/converter_hf_to_mcore.py:250-256 | transposing the three stacked parts by groups is interleaving them |
| `LayerNumbering.MergeStateDicts` | scripts/legacy_model_merger.py:609-659 | the loops over virtual and pipeline ranks compute the merge of all chunks in that order |
| `LayerNumbering.MergeOwnStateDicts` | verl/model_merger/megatron_model_merger.py:358-420 | a rank's merge numbers its layers from the sum of the shards before it |
| `LayerNumbering.NumberingIsExact` | scripts/legacy_model_merger.py:617-657 | every chunk starts at the number of layers before it if and only if no chunk but the last is without layers |
| `LayerNumbering.LayersTile` | scripts/legacy_model_merger.py:634-639 | every global layer below the total is a layer of some chunk |
| `LayerNumbering.LayerIsOnce` | scripts/legacy_model_merger.py:634-639 | a global layer is a layer of one chunk only |
| `LayerNumbering.InterleavedSchedule` | scripts/legacy_model_merger.py:619-620 | with k layers in each chunk, virtual stage v of pipeline rank p starts at layer (pp * v + p) * k |
| `LayerNumbering.EmittedOnce` | scripts/legacy_model_merger.py:645-654 | for any chunks, empty or with holes, no two entries are stored under one key with a layer number, and no two entries of one chunk under any key |
| `LayerNumbering.MergeLosesNothing` | scripts/legacy_model_merger.py:609-659 | the merged dictionary has exactly the keys under which an entry stores a tensor; with a layer number a key holds the one tensor stored there, and without one the last |
| `LayerNumbering.PartsOfLayer` | scripts/legacy_model_merger.py:640-654 | for an entry with a layer number: its query, key and value are under the names of q, k and v of the renumbered layer, its gate and up under those of gate and up, any other tensor under its own, and none of the other parts is there |
| `LayerNumbering.MergedLayers` | verl/model_merger/megatron_model_merger.py:377-386 | the layer numbers that occur are start, ..., start + number of layers - 1 |
| `LayerNumbering.EmptyChunkLeavesGap` | scripts/legacy_model_merger.py:657-657 | with an empty chunk in front layer 0 is missing |
| `ShardFiles.SaveOwn` | verl/model_merger/megatron_model_merger.py:433-465 | a rank with layers writes its dictionary to exactly its own file numbers, each key in one file, which its index names; keys are filed in order and the files differ by at most one in their number of keys, the fuller ones first; a rank without layers fails |
| `ShardFiles.FilesCover` | verl/model_merger/megatron_model_merger.py:435-458 | the files of all ranks are 0, ..., sum of the shards * saves_per_layer - 1 |
| `ShardFiles.ModelFilesCover` | verl/model_merger/megatron_model_merger.py:425-458 | with the split of the model the files are one for each layer below 30 layers and two from there on, as their names count, no more and no fewer |
| `ShardFiles.FilesAreDisjoint` | verl/model_merger/megatron_model_merger.py:435-458 | no file is written by two ranks |
| `ShardFiles.WeightMapFindsFile` | verl/model_merger/megatron_model_merger.py:472-474 | the gathered weight map sends a key to the one file that holds it of the last rank with it; no other file of any rank holds it unless another rank has it |
| `ShardFiles.LayerHasOneRank` | verl/model_merger/megatron_model_merger.py:377-386 | a key with a layer number is merged by one rank only |
| `ShardFiles.EveryLayerIsMerged` | verl/model_merger/megatron_model_merger.py:358-420 | with the split of the model some rank has merged layer g if and only if g is below the number of layers |
| `ShardFiles.CheckpointIsComplete` | verl/model_merger/megatron_model_merger.py:358-474 | from chunks to files: each tensor that a chunk of a rank stores under a key with a layer number, be it a whole one or the q, k, v, gate or up part, is itself in exactly one file under that key, which the weight map names; so is the last one of a key without a number |
| `ExpertPartition.CopyLocalExperts` | scripts/converter_hf_to_mcore.py:179-192 | a rank copies its contiguous share of the experts in order, counts their elements, and keeps the size of the last down weight, if there is one |
| `ExpertPartition.CopiedOnce` | scripts/converter_hf_to_mcore.py:181-186 | no expert is copied by two ranks |
| `ExpertPartition.AllCopied` | scripts/converter_hf_to_mcore.py:181-186 | every expert is copied if and only if the ranks divide the experts |
| `ExpertPartition.CountCheckIsExact` | scripts/converter_hf_to_mcore.py:420-423 | three times the size of a down weight for each expert of the share is what the check expects if and only if the ranks divide the experts |
| `ExpertPartition.CopyAndCheck` | scripts/converter_hf_to_mcore.py:391-423 | copying and then checking fails on an unassigned size exactly when there are fewer experts than ranks; otherwise, for experts of one size, the check passes if and only if the ranks divide the experts |
| `MoeStacking.MoeMerge` | scripts/veomni/moe_merge.py:78-110 | RuntimeError exactly when neither expert count is configured or there are layers to merge and no experts, KeyError exactly when an expert's weight is missing; otherwise row j of the stacked tensor of every layer from `first_k_dense_replace` on, or from 0, is the weight of expert j, for all experts that `num_experts` or otherwise `n_routed_experts` counts, and all else is unchanged |
| `MoeStacking.MoeSplit` | scripts/veomni/moe_split.py:73-83 | AttributeError exactly without `num_experts`, IndexError exactly when a stacked tensor has no slice for some expert; otherwise they are split and all else is unchanged |
| `MoeStacking.MergedIsSplittable` | scripts/veomni/moe_split.py:79-83 | a merged dictionary can be split |
| `MoeStacking.SplitUndoesMerge` | scripts/veomni/moe_split.py:73-83 | splitting a merged dictionary gives the original if and only if it had no stacked key |
| `BboxResize.ValidateBbox` | verl/tools/image_zoom_in_tool.py:181-203 | accepts exactly non-empty boxes of aspect ratio at most 100 |
| `BboxResize.MaybeResizeBbox` | verl/tools/image_zoom_in_tool.py:205-297 | a returned box is inside the image, at least 28 by 28, of aspect ratio at most 100, and contains every part of the request that lies in the image; a part that is large enough is returned as it is; None exactly when the clamped box is invalid, or is too small and fails a condition on the image and on the whole pixels that its sides touch once enlarged |
| `BboxResize.ClampIsCommonPart` | verl/tools/image_zoom_in_tool.py:217-221 | a box lies in the clamped one if and only if it lies in the requested one and in the image |
| `BboxResize.AcceptedIsExact` | verl/tools/image_zoom_in_tool.py:231-297 | for every image and every valid box that is too small, the enlarged, rounded box passes the final check if and only if: with room for 28 pixels, the shorter side touches a pixel more than 28 or the longer side at most 2800; without, the shorter side touches at least 28 and the longer is an image side of 28 to 100 times that many |
| `BboxResize.RoomyIsExact` | verl/tools/image_zoom_in_tool.py:244-297 | with room for 28 pixels a box is rejected if and only if its shorter side comes to lie on whole pixels and its longer side touches more than 2800, in both orientations |
| `BboxResize.TargetSize` | verl/tools/image_zoom_in_tool.py:244-256 | the two-step scaling is scaling by the least of 28 / shorter side and the ratios of image to box |
| `BboxResize.ScaleIsLargest` | verl/tools/image_zoom_in_tool.py:244-256 | a factor is at most that scale if and only if with it the shorter side has at most 28 pixels and both sides fit into the image |
| `BboxResize.GrownCovers` | verl/tools/image_zoom_in_tool.py:258-277 | growing and shifting keeps the box inside the image and around the clamped box |
| `BboxResize.GrownIsCentred` | verl/tools/image_zoom_in_tool.py:258-277 | the grown box has the scaled sides, and of all boxes of that size in the image its centre is nearest to that of the clamped box, along either side |
| `BboxResize.GrownKeepsProportions` | verl/tools/image_zoom_in_tool.py:244-256 | growing keeps the aspect ratio |
| `BboxResize.RoundedIsSmallest` | verl/tools/image_zoom_in_tool.py:279-286 | rounding gives the smallest box of whole pixels that contains the grown one |
| `BboxResize.RoomIsEnough` | verl/tools/image_zoom_in_tool.py:231-297 | with room for 28 pixels every box is accepted whose longer side is at most 2799 / 28 times its shorter side |
| `BboxResize.RoundingGainsLittle` | verl/tools/image_zoom_in_tool.py:279-295 | a small box is accepted only if it reaches more than 26 pixels before rounding |
| `BboxResize.RoundingCanReject` | verl/tools/image_zoom_in_tool.py:279-286 | a valid box of aspect ratio 100 in a large image that is rejected after rounding |
| `ParallelLoad.ChunksCoverFiles` | verl/utils/fsdp_utils.py:295-299 | the chunks of all ranks are the files, each once and in order |
| `ParallelLoad.ChunkSizeIsLeast` | verl/utils/fsdp_utils.py:295-296 | no smaller number of files for each rank covers all files |
| `ParallelLoad.ChunkLength` | verl/utils/fsdp_utils.py:297-299 | a rank has that number of files or what the ranks before left |
| `ParallelLoad.ParallelLoadSafetensors` | verl/utils/fsdp_utils.py:295-314 | the states of a rank are those of all files, loaded for its own chunk and remote for the others |
| `ParallelLoad.RanksAgree` | verl/utils/fsdp_utils.py:301-314 | all ranks name the same owner for each parameter, and the owner has the checkpoint's value |
| `ParallelLoad.OwnerHasFile` | verl/utils/fsdp_utils.py:299-313 | the owner of a parameter is the rank whose chunk has its file |
| `ParallelInit.StateToFqn` | verl/utils/fsdp_utils.py:330-336 | lists every name under its state, behind exactly the names that the state was paired with before, and nothing else; the shared states are those with more than one |
| `ParallelInit.InitModules` | verl/utils/fsdp_utils.py:339-398 | on every rank the same broadcasts happen with the same sources in the same order, failures included, and every slot ends with the owner's value when broadcasts of other ranks bring that value |
| `ParallelInit.AnyDelivery` | verl/utils/fsdp_utils.py:348-354 | whatever broadcasts bring, they bring some values that `InitModules` can be called with: each parameter is broadcast once |
| `ParallelInit.EveryRankIsFilled` | verl/utils/fsdp_utils.py:348-354 | when all ranks initialise and a broadcast gives every rank its source's data, every slot of every rank holds the checkpoint's value |
| `ParallelInit.CanInitialise` | verl/utils/fsdp_utils.py:295-398 | what a rank has loaded from the checkpoint lets it call `InitModules`, whatever broadcasts bring |
| `ParallelInit.CheckpointFillsRanks` | verl/utils/fsdp_utils.py:295-398 | from files to modules: when every rank has loaded its share and initialised its modules, and broadcasts gave every rank their source's data, every slot of every rank holds the checkpoint's value |
| `ParallelInit.EachStateOnce` | verl/utils/fsdp_utils.py:377-386 | no state is synchronised twice |
| `ParallelInit.SynchronisedOnce` | verl/utils/fsdp_utils.py:330-336 | with the collected names no state, shared or not, is synchronised twice |
| `ParallelSlots.WalkLaw` | verl/utils/fsdp_utils.py:357-398 | the walk stops exactly at the first slot whose state has no name left or whose name was not loaded, unless it is a parameter that an earlier slot made; a slot on meta takes its state's next name and gets the parameter of that name or, when an earlier slot made it, of the state's first; and what is broadcast is what slots make, in order |
| `ParallelSlots.SlotGetsFirstName` | verl/utils/fsdp_utils.py:330-398 | with the collected names every slot on meta gets the parameter of the first name that its state is paired with |
| `ParallelSlots.SlotsHoldCheckpoint` | verl/utils/fsdp_utils.py:295-398 | from files to modules: on every rank every slot on meta that was reached ends with what the checkpoint has in the file listing the first name of its state |
| `DataProto.PadToDivisor` | verl/protocol.py:73-98 | the length becomes the next multiple of the divisor, every column is followed by its own first rows, and concatenating the pieces never fails; with columns of one length row j of the result is row j mod n |
| `DataProto.PaddedIsCycled` | verl/protocol.py:73-98 | with columns of one length every column of the padded data goes round and round |
| `DataProto.UnpadUndoesPad` | verl/protocol.py:101-105 | removing the padding gives back the data if and only if every column is empty or has at least min(pad, n) rows, so always with a tensor batch |
| `DataProto.ConcatOfSlices` | verl/protocol.py:927-972 | concatenating any slices of any data gathers the sliced rows in every tensor and non-tensor column and keeps the metadata |
| `DataProto.ConcatColumnIs` | verl/protocol.py:941-945 | concatenating any data: each row of each part is in the column with its key of the result, after all rows of the parts before |
| `DataProto.ConcatFails` | verl/protocol.py:938-972 | no data is an IndexError; batches of which only some exist or that differ in a key a KeyError; a non-tensor key that the first part lacks, metadata that disagrees, or columns of other lengths an AssertionError |
| `DataProto.MergeMetaIs` | verl/protocol.py:947-965 | the metadata merges exactly when no two parts give a key different values, and then has what any part has |
| `DataProto.ConcatIsValid` | verl/protocol.py:927-972 | concatenating consistent data gives consistent data |
| `DataProto.ConcatUndoesChunks` | verl/protocol.py:875-914 | chunking succeeds exactly when the rows divide evenly or, with padding, when torch.chunk gives the requested number; then concatenation undoes it |
| `DataProto.ChunkPieces` | verl/protocol.py:885-914 | chunk i of a batch has rows i * c, ..., i * c + c - 1 of every column as far as there are such, where c is the rows over the chunks, rounded up |
| `DataProto.ChunkSections` | verl/protocol.py:892-908 | without a batch every column is divided by its own length, its chunks differ by at most one row and the fuller ones come first |
| `DataProto.ChunksFail` | verl/protocol.py:881-890 | zero chunks are refused, except with padding of data without columns; rows that do not divide evenly are an AssertionError without padding |
| `DataProto.ConcatUndoesSplit` | verl/protocol.py:916-925 | concatenation undoes splitting if and only if there are rows and the last split reaches the end of every column, so always with a tensor batch that has rows |
| `DataProto.SplitPieces` | verl/protocol.py:916-925 | split i has rows i * size, ..., i * size + size - 1 of every column as far as there are such |
| `GroupStats.GroupMeanStd` | verl/utils/groupwise.py:187-223 | fails exactly on a length mismatch, or on a negative group when the largest is not -1; with a largest group of -1 nothing is computed; otherwise each group of at least two scores has their mean and the sum of the squared distances from it over one less than their number, or eps where that is more, and each group of at most one score 0 and 1 |
| `GroupStats.ScoreAt` | verl/utils/groupwise.py:203-205 | a group's scores are those with its number, in order: score i stands behind as many scores as its group has before i |
| `GroupStats.OnePassIsTwoPass` | verl/utils/groupwise.py:207-210 | the sum of squares less the squared sum over the count is the sum of squared distances from the mean |
| `GroupStats.VarianceNotNegative` | verl/utils/groupwise.py:208-210 | the single-pass variance of at least two scores is not negative |
| `GroupStats.CountsSumToLength` | verl/utils/groupwise.py:203-203 | the counts of all groups sum to the number of scores |
| `GroupStats.StatsIgnoreOrder` | verl/utils/groupwise.py:203-223 | permuting scores and groups together changes nothing in the result of `GroupMeanStd`, the number of groups and failures included |

## Left out

- Sockets, RDMA transfers, NCCL, HCCL and CUDA streams themselves; see the assumptions above. Transfer errors end
  the original process and are not modelled.
- Trainer ranks other than 0, which only consume their weights, and the logging of bandwidth.
- The rank lists that the NCCL, HCCL and KIMI engines' `build_topology` compute, which are constant lists; the ordered
  phases of `CheckpointEngineManager.update_weights`.
- The bucket list of the KIMI engine: `_gen_h2d_buckets` and `_to_named_tensor` of the checkpoint-engine library are not
  part of this model; their result is a parameter of `KimiReceive.ReceiveTensor`, with every bucket within the limit.
- `ParallelInit.InitModules`: module trees are given as the list of slots in the order of the walk.
- `Broadcast.SendWeights`: after the assertion on an oversized weight the operation still in flight is not followed up.
- `ActivationOffload.OffloadHandler.TensorPush`: the filter that keeps parameters on the device is the argument `needOffload`.
- `TrainingStep.TrainStep`: each layer's tensors are asked for in its own backward, and once.
- The synchronous handler, whose push copies at once; `_pack_kwargs` and `_unpack_kwargs`; autograd hooks.
- `LayerNumbering.MergeStateDicts`: a chunk's tensors come merged over tensor-parallel ranks; which keys are renamed or
  checked is not modelled.
- `ParallelLoad.RanksAgree`: an index file that does not describe the contents of the files, or lists a parameter twice.
- Tensors merged along the second dimension or taken from rank 0 (`fc2`, `linear_proj`, norms).
- `ExpertPartition.CopyAndCheck`: the other weights of the layer, which are copied whole and so count alike on both
  sides of the check.
- `total_size` of the index file and the writing of files.
- `BboxResize.MaybeResizeBbox`: floating-point rounding; coordinates are reals, and image sides whole numbers.
- `GroupStats.GroupMeanStd`: the square root and float32 sums; the variance is given in place of the standard deviation.
- `as_torch_index`, which leaves integer labels as they are and otherwise numbers the distinct labels.
- `DataProto.ConcatUndoesChunks`: chunking a batch without rows, which depends on the tensordict library.
- The "metrics" entry of the metadata, which concatenation turns into a dictionary of lists.
- Folding, repeating, reordering and selecting rows of a `DataProto`, which are single reshapes or index maps; equality of
  overlapping columns in `union`; serialisation.
- Parameter-name rewriting tables, Hugging Face model construction, uploads, trainers, losses and the other tools.
