# Verified models of faithrec and its verl trainer

This project models the parts of the repository whose correctness rests on protocols, schedules
and exact arithmetic, and proves what they are for. Verify it with
`dafny verify dfyconfig.toml` (Dafny 4.11). Every lemma switches automatic induction off, so each
inductive proof is the one written in its body.

What is modelled:

* **Weight transfer** (`Weights.dfy`, `MergeExact.dfy`, `Packing.dfy`, `RoundTrip.dfy`, `Nixl*.dfy`,
  `Broadcast*.dfy`).
  A trainer splits named weights into byte chunks, packs them greedily into buckets and ships the
  buckets through two alternating buffers; receivers unpack the buckets and merge the chunks.
  The NIXL engine passes buckets down a chain of ranks, the NCCL engine broadcasts them. Both are
  step systems in which any rank may take the next step, reads and collectives copy byte by byte,
  and every interleaving is a run. The splitter, the packer (two arrays that are swapped) and the
  merger (a buffer written in place) are methods proved against functions on values.
* **Activation offloading** (`Offload*.dfy`). The handler is a class whose methods update its tag
  tables, host copies and counters; each method is proved against an operation on table values, and
  whole training cycles are proved about those.
* **Rollout collection** (`ReplayBuffer.dfy`, `Rollout*.dfy`, `SessionKeys.dfy`). The replay
  buffer is a class; the workers, the polling thread and the trainer are a step system over its table
  and the queue's. Session keys are strings that are printed, split from the right and grouped.
* **Checkpoint layouts** (`QkvLayout.dfy`, `PipelineShards.dfy`). Packing, splitting and merging of
  fused attention weights, and the search for layers per pipeline rank.
* **Reranking data and reward** (`Ndcg.dfy`, `Reward.dfy`, `WarmStart.dfy`, `Candidates.dfy`,
  `TrainingRows.dfy`). The ranking metrics over exact reals with any strictly decreasing discount, the
  answer checks and the score, the generated training target, and the construction of candidate lists.
  Random choices are nondeterministic, so the contracts hold for every sequence of them.
* **Crop boxes** (`ImageBox.dfy`) in exact real arithmetic.

`Numbers.dfy`, `Finite.dfy` and `Filters.dfy` hold what several of these need about minima, finite sets and
filtered lists.

Assumptions about the surroundings, all built into the models: messages arrive in order and are not
lost; a completed read or broadcast has copied the whole buffer that was announced; the root's part
of a broadcast ends when every receiver has its data; consumers keep pulling chunks; the queue's
put, list and clear are atomic; prompts get ids that were not used before; tensors of one group
that share a key share their data.

Where the code differs from what it is meant to do, or from its documentation, the model follows the
code and the difference is a theorem:

* `build_topology` sets up a chain only for two or more rollout workers. With one, the slice that
  should be empty is the whole list (`NixlTopology.TopologyIsChainIffTwoRollouts`).
* `get_notification` rebinds the name it waits for while it sorts notices, so it is right for every
  arrival order exactly when no other peer sends notices (`NixlQueues.NoticesNeedOnePeer`). In
  the chain only the next rank does.
* Weights without bytes produce no chunk and never arrive; the round trip is exact if and only if
  there are none (`RoundTrip.WeightRoundTrip`).
* A chunk stream that breaks off inside a weight merges without an error and leaves that weight out
  (`MergeExact.UnfinishedIsDropped`), and a later chunk that announces a smaller shape ends its weight
  early (`MergeExact.SmallerShapeEndsEarly`); what merges is exactly described by
  `MergeExact.MergesExactly`. The splitter produces neither.
* The promise that only two layers' activations stay on the device holds on the way back exactly when
  the saved tensors of the layers already passed have been used (`OffloadProofs.TwoGroupResidency`);
  `OffloadProofs.ThreeGroupsHeld` is a legal run in which three groups are held.
* One host copy per key restores a group exactly when equal keys mean equal data
  (`OffloadProofs.KeySharingExact`).
* The pipeline search can come up empty although there are more layers than ranks, and then ends in
  an index error; the exact condition is in `PipelineShards.GetDynamicPipelineShards`.
* Merging row shards gives the split of distinct rows if and only if the number of shards divides the
  key/value heads (`QkvLayout.ShardedMergeExact`). Otherwise the merge fails, always so with more
  shards than key/value heads, or it goes through and takes the first key row for a query row
  (`QkvLayout.UnevenShardsGoWrong`, with `QkvLayout.UnevenShardsMixRows` as an instance). The script
  calls `_merge_across_tp` without comparing the two numbers
  (`verl/scripts/legacy_model_merger.py:640`), so such a checkpoint reaches the merge. Megatron's
  layers, which decide whether one is ever written, are not part of this model.
* The generated target is accepted by the verifier exactly for the instances described by
  `WarmStart.Teachable`; an evidence id that is the empty string is dropped from the target but still
  demanded by the verifier (`WarmStart.EmptyIdIsRejected`).
* A small box with aspect ratio at the limit of 100 and room to grow can be refused after rounding
  (`ImageBox.RoundingCanRefuse`): with room a box is refused if and only if its sides round out to 28 and
  to more than 2800 (`ImageBox.RefusedExactly`).

## Model

| member | source | states |
|---|---|---|
| Weights.SplitWeight | verl/verl/checkpoint_engine/base.py:476-490 | the chunk loop of one weight emits consecutive slices of at most one bucket size until all bytes are out |
| Weights.SplitWeightChunks | verl/verl/checkpoint_engine/base.py:464-490 | the whole generator yields the chunks of all weights in order |
| Weights.MergeWeightChunks | verl/verl/checkpoint_engine/base.py:493-532 | the merge loop with its partly filled buffer written in place gives, errors included, the merge of the chunk stream, whatever freshly allocated memory held |
| Weights.WriteSlice | verl/verl/checkpoint_engine/base.py:528 | assigning a slice changes exactly the slice |
| Weights.NumelOfParts | verl/verl/checkpoint_engine/base.py:508 | the number of elements of a shape is the product of its dimensions, in any order |
| MergeExact.MergesExactly | verl/verl/checkpoint_engine/base.py:493-532 | for every stream, well formed or not: it merges into given weights if and only if it consists of their chunks, each weight in one piece or in consecutive pieces of one name from offset 0 to its end, followed by at most a part of one more |
| MergeExact.UnfinishedIsDropped | verl/verl/checkpoint_engine/base.py:515-532 | a stream that is the first part of a large weight yields nothing, without an error |
| MergeExact.SmallerShapeEndsEarly | verl/verl/checkpoint_engine/base.py:508-532 | a chunk that announces a smaller shape than the first one ends the weight, the rest of which is whatever memory held |
| Packing.ShipChunks | verl/verl/checkpoint_engine/nccl_checkpoint_engine.py:244-294 | the sender's loop over two swapped buffers ships exactly the buckets of the greedy packing, each as a prefix of its buffer, the last and only the last marked; it fails exactly when the packing fails |
| Packing.SizeOfMonotone | verl/verl/checkpoint_engine/nccl_checkpoint_engine.py:276-279 | every chunk of a tiled bucket ends within the bucket |
| Packing.UnpackPrefix | verl/verl/checkpoint_engine/nccl_checkpoint_engine.py:345-347 | a receiver slicing a whole buffer by the metadata reads the same chunks whatever stale bytes follow the filled part |
| Packing.PlaceUnpack | verl/verl/checkpoint_engine/nccl_checkpoint_engine.py:276-279 | placing a chunk adds exactly that chunk to what a receiver reads, and disturbs none before it |
| RoundTrip.SplitChunks | verl/verl/checkpoint_engine/base.py:476-490 | chunks have 1 to bucket-size bytes, and under distinct names every chunk that is not the last of its weight fills a bucket |
| RoundTrip.PackSplitOk | verl/verl/checkpoint_engine/nccl_checkpoint_engine.py:273-274 | the capacity and unique-name asserts never fail on the chunks of distinctly named weights |
| RoundTrip.PackFromShape | verl/verl/checkpoint_engine/nccl_checkpoint_engine.py:250-279 | buckets are tiled from 0 without gaps, hold distinct names, all but the last are non-empty, and two consecutive ones exceed one bucket size |
| RoundTrip.PackFromContents | verl/verl/checkpoint_engine/nccl_checkpoint_engine.py:247-279 | unpacking all buckets gives back the chunk stream, up to the offset stamped on each chunk |
| RoundTrip.PackingBound | verl/verl/checkpoint_engine/nccl_checkpoint_engine.py:250-279 | for distinctly named weights: packing succeeds, is well filled, loses no byte, and needs at most 2 * total / bucket_size + 1 buckets |
| RoundTrip.MergeLarge | verl/verl/checkpoint_engine/base.py:515-532 | from any point of a weight larger than a bucket, the remaining chunks complete it |
| RoundTrip.MergeSplit | verl/verl/checkpoint_engine/base.py:464-532 | merging undoes splitting for every positive bucket size |
| RoundTrip.WeightRoundTrip | verl/verl/checkpoint_engine/base.py:476-532 | split, pack, unpack and merge give back the ordered list of weights that have bytes; this is the whole list if and only if every weight has |
| RoundTrip.ReceiveShipped | verl/verl/checkpoint_engine/nccl_checkpoint_engine.py:333-361 | what receivers read from the shipped buffers is the packed stream |
| RoundTrip.Transfer | verl/verl/checkpoint_engine/nccl_checkpoint_engine.py:230-361 | sender and receiver methods put together deliver the weights |
| NixlInvariant.InitInv | verl/verl/checkpoint_engine/nixl_checkpoint_engine.py:385-392 | the chain's invariant holds at the start, whatever the buffers hold |
| NixlSteps.PutKeeps | verl/verl/checkpoint_engine/nixl_checkpoint_engine.py:416-422 | filling the send buffer keeps the sender's plan and never touches the announced buffer |
| NixlSteps.ShipStep | verl/verl/checkpoint_engine/nixl_checkpoint_engine.py:402-414 | announcing a bucket and swapping buffers keeps the invariant of the whole chain |
| NixlSteps.ConfirmStep | verl/verl/checkpoint_engine/nixl_checkpoint_engine.py:170-174 | the sender's wait finds the notice of its own announcement |
| NixlSteps.ReadStep | verl/verl/checkpoint_engine/nixl_checkpoint_engine.py:479-482 | starting a read of the announced buffer keeps the invariant |
| NixlSteps.AnnounceStep | verl/verl/checkpoint_engine/nixl_checkpoint_engine.py:469-477 | forwarding the current bucket keeps the invariant |
| NixlSteps.YieldStep | verl/verl/checkpoint_engine/nixl_checkpoint_engine.py:484-487 | yielding a chunk extends the stream by the sender's next chunk |
| NixlSteps.EndYieldStep | verl/verl/checkpoint_engine/nixl_checkpoint_engine.py:489-491 | waiting for the next rank keeps the invariant |
| NixlSteps.EndReadStep | verl/verl/checkpoint_engine/nixl_checkpoint_engine.py:492-500 | swapping buffers after the own read keeps the invariant |
| NixlSteps.CopyStep | verl/verl/checkpoint_engine/nixl_checkpoint_engine.py:211-219 | each byte a transfer copies keeps the invariant |
| NixlSteps.CompleteStep | verl/verl/checkpoint_engine/nixl_checkpoint_engine.py:221-232 | a completed transfer leaves the announced bucket in the buffer and one notice behind |
| NixlSteps.StepKeepsInv | verl/verl/checkpoint_engine/nixl_checkpoint_engine.py:393-519 | every step of every rank keeps the chain's invariant |
| NixlProofs.BufferSafety | verl/verl/checkpoint_engine/nixl_checkpoint_engine.py:393-519 | in every reachable state of any number of ranks, no step writes, or starts a read into, a buffer the next rank has been told to read and has not finished reading, and none writes the buffer a receiver yields from |
| NixlProofs.NoAssertFails | verl/verl/checkpoint_engine/nixl_checkpoint_engine.py:416-417 | no capacity, name or notify-key assert fails in any run |
| NixlProofs.StreamRefinement | verl/verl/checkpoint_engine/nixl_checkpoint_engine.py:445-519 | at every moment each receiver's (metadata, bytes) stream is a prefix of the sender's, and all of it once the receiver is done |
| NixlProofs.ChainDelivers | verl/verl/checkpoint_engine/nixl_checkpoint_engine.py:436-443 | a receiver that is done merges exactly the weights that were sent |
| NixlProofs.NoticeWillCome | verl/verl/checkpoint_engine/nixl_checkpoint_engine.py:489-491 | a rank waiting for a completion notice waits, through later ranks, for one that can move |
| NixlProofs.MessageWillCome | verl/verl/checkpoint_engine/nixl_checkpoint_engine.py:479-481 | a rank waiting for an announcement waits, through earlier ranks, for one that can move |
| NixlProofs.NoDeadlock | verl/verl/checkpoint_engine/nixl_checkpoint_engine.py:424-519 | no reachable state is stuck before every rank is done |
| NixlProofs.StepCost | verl/verl/checkpoint_engine/nixl_checkpoint_engine.py:393-519 | every step lowers the work left of the rank that takes it |
| NixlProofs.EveryRunEnds | verl/verl/checkpoint_engine/nixl_checkpoint_engine.py:424-519 | runs are bounded; a run is at rest if and only if every rank is past the last bucket, and then every receiver has yielded the whole stream |
| NixlProofs.RunCompletes | verl/verl/checkpoint_engine/nixl_checkpoint_engine.py:424-519 | every run, however far it has got, extends to one at rest |
| NixlProofs.SomeRunCompletes | verl/verl/checkpoint_engine/nixl_checkpoint_engine.py:393-519 | every chain with a valid packing has a run that delivers the whole stream to every receiver |
| NixlTopology.TopologyIsChainIffTwoRollouts | verl/verl/checkpoint_engine/nixl_checkpoint_engine.py:289-305 | the keyword lists have the right lengths if and only if there are at least two rollout workers, and then they pass every assert, agree on the world size and link rank 0 to 1 to ... to the last |
| NixlTopology.SingleRolloutIsRejected | verl/verl/checkpoint_engine/nixl_checkpoint_engine.py:303 | one trainer and one rollout worker: three next neighbours for one worker |
| NixlQueues.Mailbox.ReadMessage | verl/verl/checkpoint_engine/nixl_checkpoint_engine.py:128-132 | returns the peer's oldest unread message and changes what is unread of no other peer |
| NixlQueues.Notifier.GetNotification | verl/verl/checkpoint_engine/nixl_checkpoint_engine.py:134-140 | the loop computes the outcome of waiting with the name rebound by every batch |
| NixlQueues.NoticesNeedOnePeer | verl/verl/checkpoint_engine/nixl_checkpoint_engine.py:134-140 | the notice handed out is the asked peer's for all arrivals if and only if no other peer notifies |
| NixlQueues.OldestNotice | verl/verl/checkpoint_engine/nixl_checkpoint_engine.py:134-140 | the wait ends at the first batch after which the peer it is then for has a notice; that peer's oldest one is handed out, and no other notice is lost or moved |
| Broadcast.MoveKeeps | verl/verl/checkpoint_engine/nccl_checkpoint_engine.py:244-361 | every move of sender, broadcast threads and receivers keeps the cluster's invariant |
| Broadcast.BroadcastSafety | verl/verl/checkpoint_engine/nccl_checkpoint_engine.py:244-361 | in every reachable state no move writes a buffer whose broadcast is in flight, nor the buffer a receiver yields from |
| Broadcast.SameNumberOfBroadcasts | verl/verl/checkpoint_engine/nccl_checkpoint_engine.py:49-99 | no receiver is ahead of the sender or more than one broadcast behind, and all have made one a bucket when done |
| Broadcast.BroadcastRefinement | verl/verl/checkpoint_engine/nccl_checkpoint_engine.py:307-361 | each receiver's stream is a prefix of the sender's, and all of it when done |
| BroadcastProgress.NoStall | verl/verl/checkpoint_engine/nccl_checkpoint_engine.py:244-361 | as long as somebody is not done, somebody can move |
| BroadcastProgress.MoveLowersCost | verl/verl/checkpoint_engine/nccl_checkpoint_engine.py:244-361 | every move lowers the work left in the cluster |
| BroadcastProgress.EveryBroadcastEnds | verl/verl/checkpoint_engine/nccl_checkpoint_engine.py:244-361 | runs are bounded; a run is at rest if and only if all ranks are done, and then every receiver has yielded the whole stream |
| BroadcastProgress.BroadcastCompletes | verl/verl/checkpoint_engine/nccl_checkpoint_engine.py:244-361 | every run, however far it has got, extends to one in which all ranks are done |
| BroadcastProgress.SomeBroadcastCompletes | verl/verl/checkpoint_engine/nccl_checkpoint_engine.py:244-361 | for any positive number of receivers a run exists that delivers the whole stream to each of them |
| BroadcastProgress.BroadcastDelivers | verl/verl/checkpoint_engine/nccl_checkpoint_engine.py:298-305 | a receiver that is done merges exactly the weights that were sent |
| OffloadWindow.LayerWindowMap | verl/verl/utils/activation_offload.py:248-257 | the constructor's loop with its running remainder computes the release schedule |
| OffloadWindow.WindowIncreasing | verl/verl/utils/activation_offload.py:250-257 | the schedule is strictly increasing |
| OffloadWindow.WindowLast | verl/verl/utils/activation_offload.py:250-257 | the schedule ends at the last layer |
| OffloadWindow.WindowStep | verl/verl/utils/activation_offload.py:250-257 | releases are layers / groups commits apart, one more for as many groups as are left over |
| OffloadWindow.WindowLate | verl/verl/utils/activation_offload.py:250-257 | a group is released no earlier than its layer, and with fewer groups than layers no earlier than the next |
| OffloadWindow.WindowOneLess | verl/verl/utils/activation_offload.py:543 | with one group less than layers, group k is released right after layer k + 1 |
| OffloadHandler.AsyncDoubleBufferGroupOffloadHandler.constructor | verl/verl/utils/activation_offload.py:228-257 | a new handler has empty tables, counters 0 and the release schedule |
| OffloadHandler.AsyncDoubleBufferGroupOffloadHandler.TensorPush | verl/verl/utils/activation_offload.py:263-283 | the new tables, or the failed assert, are those of the push on values |
| OffloadHandler.AsyncDoubleBufferGroupOffloadHandler.TensorPop | verl/verl/utils/activation_offload.py:285-296 | likewise for the pop and the tensor returned |
| OffloadHandler.AsyncDoubleBufferGroupOffloadHandler.OffloadTags | verl/verl/utils/activation_offload.py:303-311 | the loop over all tags moves exactly one group, keeping one copy a key, that of the tensor pushed first; it fails exactly if a tensor of the group is already on the host |
| OffloadHandler.AsyncDoubleBufferGroupOffloadHandler.BulkOffloadGroup | verl/verl/utils/activation_offload.py:298-317 | the group's copies are stored under its number and nothing else changes |
| OffloadHandler.AsyncDoubleBufferGroupOffloadHandler.ReleaseBufs | verl/verl/utils/activation_offload.py:335-338 | exactly the released group's references are dropped |
| OffloadHandler.AsyncDoubleBufferGroupOffloadHandler.SynchronizeOnGroupCommitForward | verl/verl/utils/activation_offload.py:319-345 | kick-start, release and next offload happen as the schedule says |
| OffloadHandler.AsyncDoubleBufferGroupOffloadHandler.OnGroupCommitForward | verl/verl/utils/activation_offload.py:347-352 | the forward commit on the object is the one on values |
| OffloadHandler.AsyncDoubleBufferGroupOffloadHandler.BulkReloadGroup | verl/verl/utils/activation_offload.py:354-371 | the loop over all tags, in any order, restores exactly one group |
| OffloadHandler.AsyncDoubleBufferGroupOffloadHandler.OnGroupCommitBackward | verl/verl/utils/activation_offload.py:373-395 | the backward commit on the object is the one on values |
| OffloadHandler.Train | verl/verl/utils/activation_offload.py:263-395 | any number of cycles of calls on one handler object: no call fails and every pop returns the tensor pushed under its tag |
| OffloadProofs.PushKeeps | verl/verl/utils/activation_offload.py:263-283 | a push in a cycle finds a new tag and keeps the invariant |
| OffloadProofs.PopKeeps | verl/verl/utils/activation_offload.py:285-296 | a pop after its layer's backward commit finds the tensor itself, as it was pushed |
| OffloadBuffers.HandleOpens | verl/verl/utils/activation_offload.py:263-296 | a push hands out a new tag under which the tensor is saved, or the tensor itself, and popping what it handed out gives the tensor |
| OffloadProofs.ForwardKeeps | verl/verl/utils/activation_offload.py:319-352 | no lookup or assert of a forward commit fails, and it keeps the invariant |
| OffloadProofs.BackwardKeeps | verl/verl/utils/activation_offload.py:354-395 | no lookup, view or assert of a backward commit fails, and it keeps the invariant |
| OffloadProofs.CycleEndsClean | verl/verl/utils/activation_offload.py:373-395 | at the end of a cycle all tables are empty and both counters 0 |
| OffloadProofs.OffloadCycles | verl/verl/utils/activation_offload.py:263-395 | for 1 <= groups <= layers and any number of cycles: nothing fails, every pop returns what was pushed, and every finished cycle leaves the handler as created |
| OffloadProofs.TwoGroupResidency | verl/verl/utils/activation_offload.py:500-504 | with groups = layers - 1, at every point the tensors held through the two tables belong to the current layer and the one before it, on the way back if and only if the passed layers' tensors have been used |
| OffloadProofs.ThreeGroupsHeld | verl/verl/utils/activation_offload.py:500-504 | a legal run of three layers whose tensors are not used after two backward commits holds all three groups |
| OffloadBuffers.HeldExactly | verl/verl/utils/activation_offload.py:279-338 | at every point of every run a saved tensor not yet used is held, as the very tensor pushed, while its group's release is ahead, so also while it is copied to the host, and again from the layer that released it on; with fewer groups than layers nothing else is held |
| OffloadBuffers.PopsExactly | verl/verl/utils/activation_offload.py:285-296 | on the way back a pop succeeds if and only if the tensor is saved, unused and due again, and then returns it |
| OffloadProofs.KeySharingExact | verl/verl/utils/activation_offload.py:298-371 | offloading and reloading a group restores it if and only if equal keys in it mean equal data |
| ReplayTable.ReplayBuffer.Add | verl/verl/trainer/main_ppo_sync.py:215-227 | updates exactly the listed keys' tags of one partition |
| ReplayTable.LatestTagWins | verl/verl/trainer/main_ppo_sync.py:224-227 | of every tag the latest listed value counts, and keys not listed keep what they have |
| ReplayTable.ReplayBuffer.Remove | verl/verl/trainer/main_ppo_sync.py:229-240 | removes exactly the listed keys of one partition |
| ReplayTable.ReplayBuffer.SampleOnce | verl/verl/trainer/main_ppo_sync.py:258-275 | one pass waits only if a prompt of the step is running, otherwise returns exactly the step's successful keys, and fails for no missing tag if all tags are complete |
| Rollout.WorkerPrompts | verl/verl/trainer/main_ppo_sync.py:341-351 | a worker's step gives one prompt more outputs or its final state; every other prompt and its queue entries, the buffer, the listing in hand and the batches stay as they were |
| Rollout.AddKeeps | verl/verl/trainer/main_ppo_sync.py:202-227 | adding a listing, however stale, keeps the invariant |
| Rollout.EventKeepsInv | verl/verl/trainer/main_ppo_sync.py:202-275 | every step of workers, polling thread and trainer keeps the invariant |
| Rollout.SampleCompleteness | verl/verl/trainer/main_ppo_sync.py:242-275 | under every interleaving, when `sample` returns for a step every prompt of the step is finished or failed, every output of every finished one is in the batch, so is every output of the step in the buffer, and nothing else is |
| RolloutProgress.SampleGetsThrough | verl/verl/trainer/main_ppo_sync.py:258-275 | once every prompt of the step is finished or failed, `sample` no longer waits from the moment a listing taken after that has been added |
| Rollout.RunBatches | verl/verl/trainer/main_ppo_sync.py:1561-1567 | the j-th batch holds only outputs of the j-th step |
| Rollout.NoKeyTwice | verl/verl/trainer/main_ppo_sync.py:1561-1567 | no key is in two batches, even when a listing taken before the clean-up is added after it |
| RolloutCleanup.QueueForgets | verl/verl/trainer/main_ppo_sync.py:1562 | in every run, once a step is over the queue holds no output of its finished prompts |
| RolloutCleanup.RemoveForgets | verl/verl/trainer/main_ppo_sync.py:1563 | after the clean-up no output of a finished prompt of the step is left anywhere, if and only if no listing with one is still in hand |
| RolloutCleanup.StaysGone | verl/verl/trainer/main_ppo_sync.py:1562-1563 | what is gone that way never comes back |
| SessionKeys.DecimalRoundTrip | verl/verl/trainer/main_ppo_sync.py:150 | reading a printed number gives the number |
| SessionKeys.SignedNumbers | verl/verl/trainer/main_ppo_sync.py:150 | signs and leading zeros are read as `int` does |
| SessionKeys.RSplitExactly | verl/verl/trainer/main_ppo_sync.py:148 | the fields joined again are the key, only the first can hold an underscore, and only if there are n others |
| SessionKeys.RSplitInvertsPrint | verl/verl/trainer/main_ppo_sync.py:414 | splitting twice from the right inverts the key printer for every uid, underscores included |
| SessionKeys.SessionsNotConfused | verl/verl/trainer/main_ppo_sync.py:147-151 | two outputs fall into one session exactly when uid and session number agree |
| SessionKeys.FinalIsUnique | verl/verl/trainer/main_ppo_sync.py:153-154 | a session has one final row |
| SessionKeys.FinalSessions | verl/verl/trainer/main_ppo_sync.py:144-162 | fails exactly on keys that do not parse; otherwise selects exactly the final rows, each once, and maps every row to its session's |
| SessionKeys.ValidationFinals | verl/verl/trainer/main_ppo_sync.py:879-894 | fails exactly when the index of a key with three fields does not parse; otherwise picks, in order of position, exactly the row of highest index of each session (the first if several have it; a key without three fields has index 0) among those that no later key without three fields discards |
| SessionKeys.PickedIsFinal | verl/verl/trainer/main_ppo_sync.py:882-894 | on keys that the trainer accepts, the validation selector's rows are the sessions' final rows |
| SessionKeys.SameFinalRows | verl/verl/trainer/main_ppo_sync.py:882-894 | training and validation select the same rows |
| QkvLayout.BlockOfConcat | verl/scripts/converter_hf_to_mcore.py:160 | cutting a concatenation of equal blocks gives the blocks back |
| QkvLayout.SplitTensors | verl/verl/model_merger/megatron_model_merger.py:330-354 | the loop over chunks that appends to three lists computes the split, and fails exactly when it does |
| QkvLayout.SplitsExactly | verl/verl/model_merger/megatron_model_merger.py:334-352 | splitting goes through if and only if the heads share the key/value heads evenly and the rows divide into that many fused heads |
| QkvLayout.MergeAcrossTp | verl/scripts/legacy_model_merger.py:529-557 | the nested loops over shards and chunks compute the merge, and fail exactly when it does |
| QkvLayout.QkvRoundTrip | verl/verl/model_merger/megatron_model_merger.py:330-354 | splitting a packed matrix returns the q, k and v rows for all head counts with kv heads dividing attention heads |
| QkvLayout.QkvSplitThenPack | verl/scripts/converter_hf_to_mcore.py:155-161 | packing what the splitter returned gives the fused matrix back |
| QkvLayout.ShardChunksAreChunks | verl/scripts/legacy_model_merger.py:541-543 | the chunks of all shards, in order, are the chunks of the whole matrix |
| QkvLayout.ShardedMergeIsSplit | verl/scripts/legacy_model_merger.py:529-557 | merging row shards equals splitting the unsharded matrix whenever the shard count divides the kv heads |
| QkvLayout.ShardedMergeExact | verl/scripts/legacy_model_merger.py:529-557 | for distinct rows, merging equal row shards equals splitting the unsharded matrix if and only if the shard count divides the kv heads |
| QkvLayout.UnevenShardsGoWrong | verl/scripts/legacy_model_merger.py:529-557 | when the shard count does not divide the kv heads, the merge fails or returns the first key row among the query rows; with more shards than kv heads it fails |
| QkvLayout.UnevenShardsMixRows | verl/scripts/legacy_model_merger.py:541-552 | an instance: three kv heads on two shards, where the merge goes through and returns key and value rows as query rows |
| PipelineShards.CandidateRange | verl/verl/model_merger/megatron_model_merger.py:81-87 | a middle size is a candidate exactly from ceil(layers / ranks) up to where two layers are left for the ends |
| PipelineShards.KeyIncreasing | verl/verl/model_merger/megatron_model_merger.py:91 | the sort key grows strictly with the middle size |
| PipelineShards.LeastKey | verl/verl/model_merger/megatron_model_merger.py:96 | among all candidates ceil(layers / ranks) has the least sort key, and no other has it |
| PipelineShards.GetDynamicPipelineShards | verl/verl/model_merger/megatron_model_merger.py:57-98 | for 3 <= ranks <= layers the search succeeds if and only if ceil(layers / ranks) * (ranks - 2) + 2 <= layers, and returns the split with that middle size, positive parts summing to the layers, the last rank getting as much as the first or one more, minimal in the sort key; also the cases of one and two ranks and the errors |
| PipelineShards.SixLayersFiveRanks | verl/verl/model_merger/megatron_model_merger.py:96 | six layers on five ranks have no candidate |
| Ndcg.HitsFirstIsBest | src/faithrec/reward.py:78-79 | hits gain most when they come first, and only then |
| Ndcg.HitsAreDistinctPositives | src/faithrec/reward.py:91-97 | the hits count the distinct positives among the first k, repeats ignored |
| Ndcg.NdcgRange | src/faithrec/reward.py:88-101 | NDCG@k is in [0, 1] for every ranking, duplicates included, and 1 exactly when the first min(number of positives, k) places hold distinct positives |
| Ndcg.OneMorePlace | src/faithrec/reward.py:78-101 | for any number of positives NDCG@k starts at 0, and each further place among the first k adds its discount over the sum of the best discounts if it holds a positive not named before, else nothing |
| Ndcg.RecallIsShare | src/faithrec/reward.py:99-100 | recall@k is the share of the positives named among the first k, and 1 exactly when all are |
| Ndcg.OnePositive | src/faithrec/reward.py:78-101 | with one positive the metric is the discount of its first place relative to the first, or 0 beyond k |
| Ndcg.OnePositiveFalls | src/faithrec/reward.py:78-101 | with one positive the metric strictly falls with its place inside the top k |
| Ndcg.CollectHits | src/faithrec/reward.py:90-97 | the loop with its set of seen positives marks a place exactly when it holds a positive seen nowhere before |
| Ndcg.RankingMetrics | src/faithrec/reward.py:82-102 | reciprocal rank of the first positive, and for every requested k hit, recall and NDCG |
| Reward.FormatErrors | src/faithrec/reward.py:105-128 | an error is reported exactly when its condition holds |
| Reward.StepErrors | src/faithrec/reward.py:155-180 | likewise for one rationale object, including the early exit on malformed support |
| Reward.RationaleErrors | src/faithrec/reward.py:137-188 | likewise for the whole rationale, with the two conditions on the selected candidate |
| Reward.TopOne | src/faithrec/reward.py:304 | NDCG@1 is 1 when a positive is on top and 0 otherwise |
| Reward.ValidityRange | src/faithrec/reward.py:131-134 | evidence validity is in [0, 1] and 1 exactly when there are references and all are known |
| Reward.ValidityStep | src/faithrec/reward.py:131-134 | every reference counts the same |
| Reward.RankingValidExactly | src/faithrec/reward.py:105-124 | a ranking counts if and only if it lists every candidate once with the selected one first |
| Reward.FormatOkExactly | src/faithrec/reward.py:105-128 | there is no format error if and only if, besides, evidence is cited and all of it is known |
| Reward.RationaleOkExactly | src/faithrec/reward.py:137-188 | there is no rationale error if and only if there are 1 to 5 objects, each an allowed claim about a candidate with 1 to 5 known and cited references, the candidate among them, one is about the selected candidate, and one such cites source evidence if there is any |
| Reward.FaithfulnessPays | src/faithrec/reward.py:195-228 | in the faithful mode correct and faithful scores at least as much as faithful, and that at least as much as the rest, strictly for positive rates |
| Reward.ComputeScore | src/faithrec/reward.py:286-339 | reports exactly the format and rationale errors; format and rationale lose a fifth for each of theirs, down to 0; an invalid ranking scores 0; the outcome is correct and faithful exactly when there is no error and a positive on top; the score is the one of the mode; unknown modes fail |
| WarmStart.FormatWarmStartResponse | teacher/build_sft.py:63-104 | fails exactly without candidates or without a positive among them, otherwise builds the target |
| WarmStart.RankingDistinct | teacher/build_sft.py:77 | the target's ranking lists every candidate once exactly when candidates and pool positives are distinct |
| WarmStart.TargetOrder | teacher/build_sft.py:65-77 | the ranking is the candidate positives in label order and then the other candidates in theirs |
| WarmStart.RefsOrder | teacher/build_sft.py:78-84 | the references are the named evidence ids in order and then the candidate positives not among them |
| WarmStart.TargetNdcg | teacher/build_sft.py:77 | a teachable instance's target has NDCG 1 against the candidate positives, for every cut-off and discount |
| WarmStart.TargetIsBest | teacher/build_sft.py:77 | no ranking of the candidates has a higher NDCG than the target's, for every cut-off and discount, also when positives are missing from the candidates |
| WarmStart.SourceInSupport | teacher/build_sft.py:83-87 | of the source evidence, the support cites exactly what is among the first four named evidence ids |
| WarmStart.TargetFormat | src/faithrec/reward.py:105-128 | the only format errors a target can have are those of repeated ids |
| WarmStart.TargetRationale | src/faithrec/reward.py:137-188 | the only rationale error a target can have is missing source support, exactly when none of the first four named evidence ids is a source |
| WarmStart.Validate | teacher/build_sft.py:156-173 | scores against the row of the instance and accepts by the default thresholds |
| WarmStart.AcceptedExactly | teacher/build_sft.py:165-172 | an answer is accepted exactly when it has no error and a positive on top, and then has full marks |
| WarmStart.TargetAccepted | teacher/build_sft.py:63-104 | the generated target is accepted if and only if the instance is teachable; then its ranking is a permutation of the candidates and format, evidence, rationale and NDCG@1 are 1 |
| WarmStart.OrdinaryInstances | teacher/build_sft.py:63-104 | distinct candidates, distinct positives and named evidence ids that are not candidates make an instance teachable |
| WarmStart.EmptyIdIsRejected | teacher/build_sft.py:78-82 | evidence whose only id is the empty string makes the target rejected |
| Items.Shuffle | src/faithrec/recbench.py:463 | shuffling permutes, whatever the random numbers |
| Candidates.SampleNegativeItems | src/faithrec/recbench.py:564-597 | whatever is drawn: at most the wanted number, no excluded id, no id twice if the catalog has none twice, and fewer than wanted only when every available id is in |
| Candidates.CatalogIndexes | src/faithrec/recbench.py:84-93 | the id table maps to the last item with an id, the title table to the first item known under a spelling |
| Candidates.PositiveItems | src/faithrec/recbench.py:528-561 | the positives have distinct ids, exactly those of the items the ground-truth rows stand for |
| Candidates.ListedIdsArePositive | src/faithrec/recbench.py:542-543 | a catalog id listed in the ground truth is the id of a positive, hence never of a negative |
| Candidates.RowById | src/faithrec/recbench.py:542-543 | a ground-truth row whose id is in the catalog stands for the last item with it |
| Candidates.RowByTitle | src/faithrec/recbench.py:544-549 | otherwise it stands for the first item known under the first spelling of its title that any item has |
| Candidates.RowMadeUp | src/faithrec/recbench.py:550-557 | and for one made up from its id and title if the catalog knows neither |
| Candidates.TitledIdsArePositive | src/faithrec/recbench.py:544-549 | the id of the item a ground-truth title names is a positive's id |
| Candidates.NoPositiveAmongNegatives | src/faithrec/recbench.py:462-504 | a candidate is labelled positive if and only if its item is one of the positives, selected or not; all others come from the catalog |
| Candidates.MatchesCounts | src/faithrec/recbench.py:624 | an item's score is the number of non-empty terms that occur in its text |
| Candidates.SortByMatches | src/faithrec/recbench.py:627 | the sort permutes, best score first and equals in their old order |
| Candidates.HardNegativeItems | src/faithrec/recbench.py:600-628 | returns the best matching items of the pool, marked hard, best first and equals in pool order, as many as wanted, or all that match |
| Candidates.ChooseItems | src/faithrec/recbench.py:462-484 | positives, hard and random negatives cut and shuffled: all selected positives, no other positive, the best matching negatives of the catalog as far as they are wanted and fit, fewer items than wanted only if none is left |
| Candidates.Letter | src/faithrec/recbench.py:486-504 | every item gets its letter and label; the positive letters are collected in order |
| Candidates.AttachCandidates | src/faithrec/recbench.py:445-525 | fails exactly on bad arguments; otherwise min(num_candidates, selected positives + non-positive catalog items) candidates with distinct item ids, all selected positives, no unselected one, the best matching hard negatives, every item one of the catalog or of the ground truth, and the counts of the policy |
| Candidates.ChosenSize | src/faithrec/recbench.py:474-483 | such a choice has exactly min(n, selected + available) items |
| TrainingRows.AttachedIsTeachable | src/faithrec/recbench.py:486-504 | an attached candidate list always yields an accepted target, given evidence ids that are neither empty nor letters in use |
| ImageBox.MaybeResizeBbox | verl/verl/tools/image_zoom_in_tool.py:205-297 | the branch-by-branch computation returns the clamped box when it is large enough, else the box grown, placed and rounded, or nothing |
| ImageBox.ClampIsIntersection | verl/verl/tools/image_zoom_in_tool.py:218-222 | a point is in the clamped box if and only if it is in the box and in the image |
| ImageBox.SamePointsSameBox | verl/verl/tools/image_zoom_in_tool.py:218-222 | two boxes with the same points, at least one, have the same edges |
| ImageBox.AspectDecides | verl/verl/tools/image_zoom_in_tool.py:181-230 | a clamped box is refused when empty or more than 100 times as long as short, and else returned as it is when both sides are at least 28 |
| ImageBox.GrownExactly | verl/verl/tools/image_zoom_in_tool.py:232-297 | a smaller one is returned grown if and only if its rounded sides are at least 28 and within the aspect limit |
| ImageBox.FactorIsLargest | verl/verl/tools/image_zoom_in_tool.py:243-257 | the growth factor is the largest one, up to a short side of 28, at which both sides fit the image |
| ImageBox.TargetSize | verl/verl/tools/image_zoom_in_tool.py:243-257 | enlarging and then shrinking width and height in turn scales both by the single factor min(28 / short side, image width / width, image height / height), and fits |
| ImageBox.FactorAtLeastOne | verl/verl/tools/image_zoom_in_tool.py:243-257 | that factor is at least 1 |
| ImageBox.ScaledCovers | verl/verl/tools/image_zoom_in_tool.py:259-276 | the grown side lies in the image and covers the original one |
| ImageBox.ScaledIsCentred | verl/verl/tools/image_zoom_in_tool.py:259-263 | and has the same centre whenever the centred one fits |
| ImageBox.ScaledIsNearest | verl/verl/tools/image_zoom_in_tool.py:265-273 | otherwise it starts as near to the centred place as the image allows |
| ImageBox.RoundedIsSmallest | verl/verl/tools/image_zoom_in_tool.py:278-279 | rounding gives the smallest box with whole edges around the grown one |
| ImageBox.ReturnedBox | verl/verl/tools/image_zoom_in_tool.py:205-297 | every returned box lies in the image, contains every point of the given box that does, and has both floored sides at least 28; a box that needs no resizing gives exactly its part in the image |
| ImageBox.UnresizedIsLarge | verl/verl/tools/image_zoom_in_tool.py:287-295 | a box that needs no resizing always passes the final size check |
| ImageBox.RoomIsEnough | verl/verl/tools/image_zoom_in_tool.py:243-297 | when the short side can reach 28 in the image it is exactly 28 before rounding, the size check passes, and the box is returned exactly if the rounded one has a valid aspect ratio |
| ImageBox.RefusedExactly | verl/verl/tools/image_zoom_in_tool.py:181-203 | with room, the grown box is refused if and only if its sides round out to 28 and to more than 2800, and returned otherwise |
| ImageBox.RoomAndAspectSuffice | verl/verl/tools/image_zoom_in_tool.py:181-203 | with room and an aspect ratio of at most 99 the grown box is always returned |
| ImageBox.TooSmallImage | verl/verl/tools/image_zoom_in_tool.py:287-295 | nothing is returned for an image narrower or lower than 28 |
| ImageBox.RoundingCanRefuse | verl/verl/tools/image_zoom_in_tool.py:196-198 | a valid 1400 by 14 box with room to grow is refused after rounding |

## Left out

- Sockets, Ray actors, CUDA streams, NIXL and NCCL bindings: they appear only as ordered messages, byte-by-byte copies and completion events; timing and bandwidth logging are not modelled.
- The trainer workers other than rank 0 and the barrier that opens a process group: they take no part in the transfer.
- Element types: a chunk is viewed as raw bytes, so alignment of a slice to its element type and strides beyond row order are not modelled.
- The mooncake, hccl and kimi checkpoint engines: other transports of the same scheme, or schemes that rest on code outside the repository.
- NixlQueues.Notifier.GetNotification: the batches that will arrive are a parameter; a wait that outlasts them is reported instead of going on for ever.
- OffloadHandler.AsyncDoubleBufferGroupOffloadHandler.BulkOffloadGroup: when an assert fails half way, the contract says so and no more about the tables left behind.
- The base class's one-tensor-at-a-time offloading, activation checkpointing, and the memory of tensors that the handler does not track.
- Device memory itself: residency is stated for what the two tag tables refer to; the mapping of host copies is not counted.
- Validation at a step, which samples another partition, and everything in a partition besides step and status tags.
- Rollout.SampleCompleteness: the sampler's sleep and the queue's own implementation are not modelled.
- RolloutProgress.SampleGetsThrough: nothing is claimed about when a prompt ends; that rests on the agent loops.
- Packing.TryPlace: a chunk whose size is not the one it announces is an error here, in Weights.MergeStep too, although a slice assignment would repeat a single byte or cut the slice at the end of the buffer; the splitter never produces one (RoundTrip.SplitChunks).
- Spellings of `int` with blanks or underscores between digits, which the key printer never produces.
- Advantage values: only the choice of rows and the mapping back to all rows are modelled.
- Biases and the gate and up halves of checkpoint conversion: the same argument with one or two equal blocks.
- PipelineShards.GetDynamicPipelineShards: the sort is modelled by what it is used for, the first element with the least key.
- The fixed score of an answer that does not parse, parsing itself, JSON round trips and regular expressions: answers, titles' spellings and lower-cased texts are inputs.
- Rationale claims that are not strings but cannot be hashed, on which the source raises.
- Floating-point rounding in metrics and boxes: exact reals; the logarithmic discount is any strictly decreasing positive function.
- Candidates.AttachCandidates: the copies of labels, titles and attributes carried along in the instance; for catalogs that repeat an id only membership and the bound on the number are stated.
- Prompt texts, parquet files, HTTP calls and error messages' wording.
