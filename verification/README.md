# Verification of the relay attention port, the block store, the sleep-mode allocator and their helpers

This project models the parts of the repository whose correctness depends on more than one
function, and proves what they promise, in Dafny 4.11. `dafny verify dfyconfig.toml` checks it.

- **Relay attention.** A system prompt's keys and values are computed once per layer; user tokens
  attend to them and to their own context separately, and the two outputs are fused. `Softmax`
  proves the fusion formula against softmax attention over the concatenated keys, over the reals,
  for any positive function that turns sums into products. `RelayModel` lifts it to models of any
  number of layers, where everything but attention acts per token, and to prompt and decoding
  runs; `AttentionLaws` says what that attention is without the functions that compute it.
  `PagedAttention` is the layer itself with its paged caches, block tables and slot mapping;
  `PagedLayer` puts it into a layer of a model with caches of its own, `PagedModel` stacks the
  layers, and `PagedServer` serves changing batches of requests through all of them, each as if
  alone: filled once, the prefix gives every request the states of one causal run over prefix and
  request. `FusionKernel` is the flat-buffer kernel, with its launch grid, strides and masks,
  against the tensor form.
- **Block store.** `BlockStore` is the file protocol as a state machine over system calls: any
  number of stores and loads, any interleaving, any failure, and crashes. `BlockRemoval` is about
  what a load's unlink takes away, `BlockOutcome` about what stores and loads return. `BlockBatch`
  is the batch loops, run by one process.
- **Sleep-mode allocator.** `ChunkPlan` is the 64-bit chunk arithmetic, `RocmDriver` the driver's
  tables with every call free to fail, `RocmAllocator` the reserve, create, map, unmap and release
  sequences with their roll-backs, and `SleepMode` the pool over malloc, free, sleep and wake.
- **Capture sizes.** `GraphSizes` is the padding table for captured batch sizes.
- **System prompt.** `FormatString` is Python's `str.format` on strings, after PEP 3101, and
  `FormatFields` its fields written out and read back; `SystemPrompt` splits a schema at the user
  prompt and compares the two ways of formatting it.
- **Two small protocols.** `SpinLoop` is the waiter that sleeps on a hardware monitor, as a state
  machine and as the loop; `PromptQueue` is the benchmark's queue with one sentinel per client.

`Arithmetic` and `Options` hold shared facts and the optional type.

Concurrency is modelled by steps in any order; the environment's answers (statuses, errnos, clock
readings, other parties' reservations, schedules) are inputs or free choices. Where the driver or
the file system can fail, ghost records of the failed calls say when a roll-back must be complete
and which error is to be reported.

Six things a caller might expect hold only under a condition, and the condition is proved exact:

- the fusion kernel asserts last strides of 1 but needs its tensors aligned, which is to say
  contiguous (`KernelExactly`, `KernelNeedsContiguous`);
- a published block stays only where no load asks for more than it holds (`BlocksStayExactly`);
- a load's unlink, meant for a short block, takes a long one away where both may stand under one
  name (`LongBlockLost`, `RemovalsExactly`);
- the chunk plan needs its three round-up sums to stay below 2^64 (`PlanExactly`);
- the spin loop checks the length of its buffer, but loses wake-ups where the buffer crosses a
  monitored line (`NoWakeUpLost`);
- the constructor's checks on a schema do not ensure that its halves format (`EscapedUserField`,
  `RelayFormatsExactly`).

## Model

| member | source | states |
|---|---|---|
| Softmax.FusionIsConcatenation | relay_attention_port/relayattn_ops_v026.py:29-44 | Fusing attention over the system keys with attention over the user keys, by the weight 1/(1+exp(lse_usr-lse_sys)), is softmax attention over both key lists one after the other, for all non-empty lengths, all scores and all value vectors |
| Softmax.FusionExactly | relay_attention_port/relayattn_ops_v091.py:35-49 | In a component where the two attention outputs differ, the fusion is attention over the concatenation if and only if exp(lse_usr-lse_sys) is the ratio of the two softmax denominators |
| Softmax.FuseComponentExactly | relay_attention_port/relayattn_ops_v026.py:38-43 | The same equivalence for one component, stated on the quotients behind the attention outputs |
| Softmax.Alpha | relay_attention_port/relayattn_ops_v026.py:38-38 | The system weight lies strictly between 0 and 1 |
| RelayModel.LseIsLog | relay_attention_port/attention_v026.py:103-117 | The lse that accompanies an attention output is the logarithm of its softmax denominator |
| RelayModel.RelayIsConcatenation | relay_attention_port/attention_v026.py:100-118 | With grouped key/value heads, every head of the fused output is attention over the prefix followed by the user context |
| AttentionLaws.KvHeadExactly | relay_attention_port/attention_v026.py:158-170 | Query heads form as many groups of equal size as there are key/value heads, in order, and head h reads key/value head g if and only if it lies in group g |
| AttentionLaws.ScoreIs | relay_attention_port/attention_v026.py:103-117 | The score of a key is the scale times the inner product of the query with the key of the head's group |
| AttentionLaws.ScoresScale | relay_attention_port/attention_v026.py:103-108 | The scores are the scale times the scores under scale 1 |
| AttentionLaws.DotCommutes | relay_attention_port/attention_v026.py:103-108 | The inner product is symmetric |
| AttentionLaws.DotPlus | relay_attention_port/attention_v026.py:103-108 | The inner product is additive |
| AttentionLaws.DotUnit | relay_attention_port/attention_v026.py:103-108 | Its value against a unit vector is that coordinate |
| AttentionLaws.SoftmaxIsUnique | relay_attention_port/attention_v026.py:103-117 | Only one list of weights sums to 1 and has the ratios of the exponentials of the scores |
| AttentionLaws.AttendIsMean | relay_attention_port/attention_v026.py:103-117 | Attention is the mean of the values by those weights, component by component |
| AttentionLaws.AttentionIs | relay_attention_port/attention_v026.py:151-217 | Every component of every head: the mean of the values of the head's group by the softmax of the scaled inner products with the keys of that group |
| AttentionLaws.AttentionToOne | relay_attention_port/attention_v026.py:151-217 | Over a single key attention is that key's value, whatever the query |
| RelayModel.CausalLayerPrefix | relay_attention_port/attention_v026.py:151-220 | A causal layer's outputs for a prefix do not depend on what follows |
| RelayModel.CausalRunPrefix | relay_attention_port/attention_v026.py:151-220 | The same through any number of layers |
| RelayModel.DepthPrefix | relay_attention_port/attention_v026.py:151-220 | The same for the states between any two layers |
| RelayModel.CacheAtDepth | relay_attention_port/attention_v026.py:93-98 | The keys and values a run leaves in layer i are those of its states before layer i |
| RelayModel.RelayLayerIsCausal | relay_attention_port/attention_v026.py:93-118 | A layer that attends to the cached prefix keys and values and to the user tokens gives what one causal layer over prefix and user tokens gives for the user tokens |
| RelayModel.RelayRunIsCausal | relay_attention_port/attention_v026.py:151-249 | For every number of layers, filling the prefix caches once and then running the user tokens gives, for each user token, the final state of one causal run over prefix and user tokens, and leaves in every layer the keys and values of that run |
| RelayModel.DecodeIsCausal | relay_attention_port/attention_v026.py:221-249 | A decoding step over the caches gives the last state of the causal run over prefix, earlier tokens and the new token, and extends every layer's cache to that run's |
| RelayModel.ServeIsCausal | relay_attention_port/attention_v026.py:93-249 | A whole request, prompt and then any number of decoded tokens, gives every token the state of one causal run over prefix, prompt and decoded tokens |
| PagedAttention.AttentionLayer.FillPrefix | relay_attention_port/attention_v026.py:97-98 | The prefix caches take the prompt's keys and values at the front and keep the rest |
| PagedAttention.AttentionLayer.ReshapeAndCache | relay_attention_port/attention_v026.py:141-149 | The paged caches take each token in its slot; padding slots store nothing |
| PagedAttention.AttentionLayer.Forward | relay_attention_port/attention_v026.py:63-255 | When the assertions fail and that nothing changes then; what each of the four caches holds afterwards; and every token's output: attention over its user context, alone or relayed with as many entries of the prefix cache as prefix_length_buffer says, and zero in the memory-profiling run |
| PagedAttention.ScatterGet | relay_attention_port/attention_v026.py:143-149 | A slot holds the last token written to it |
| PagedAttention.ScatterKeeps | relay_attention_port/attention_v026.py:143-149 | A slot no token is written to keeps its entry |
| PagedAttention.SlotExactly | relay_attention_port/attention_v026.py:143-149 | The slot of a position lies in the block its table gives, as far in as the position lies in its own block |
| PagedAttention.ContextExtends | relay_attention_port/attention_v026.py:141-149 | Writing a run's tokens extends the paged context of a request by exactly that request's own new tokens, whatever the other requests of the batch write |
| PagedAttention.PromptIsRelayLayer | relay_attention_port/attention_v026.py:151-220 | In a prompt run over a flat batch, token i of each sequence sees exactly its own sequence up to i, so the layer's output is the relay layer (or, without a prefix, the causal layer) of that sequence alone |
| PagedAttention.DecodeIsRelayStep | relay_attention_port/attention_v026.py:221-249 | In a decoding run the context of request b is its earlier paged context and its new token, so the output is the relay step of that request alone |
| PagedAttention.FuseTokenIsNative | relay_attention_port/attention_v026.py:242-249 | The fusion in the layer, with the lse of the prefix part in [head, token] layout, is the tensor form of the fusion operator for any strides of its four tensors |
| PagedAttention.FuseAllByKernel | relay_attention_port/attention_v026.py:242-249 | The kernel, called as the layer calls it and launched in any order, leaves in the fused tensor what the layer's fusion is specified to give |
| PagedLayer.DecoderLayer.Fill | relay_attention_port/attention_v026.py:90-98 | After the fill call the front of the prefix cache is the keys and values of the prefix states, and the output is the causal layer's |
| PagedLayer.DecoderLayer.Prompt | relay_attention_port/attention_v026.py:100-220 | A prompt call writes the batch's keys and values to their slots, keeps the prefix cache, and gives every token attention over the prefix and its own row up to it |
| PagedLayer.DecoderLayer.Decode | relay_attention_port/attention_v026.py:221-249 | A decoding call does the same for one token of each request and the request's paged context |
| PagedLayer.DecoderLayer.ServePrompt | relay_attention_port/attention_v026.py:141-220 | For all requests at once, those of the batch and those that wait: each one's paged context becomes its keys and values in full, and the outputs are its next states over the prefix |
| PagedLayer.DecoderLayer.ServeDecode | relay_attention_port/attention_v026.py:141-249 | The same for a decoding run, with block tables that have grown |
| PagedModel.Stack.RunFill | relay_attention_port/attention_v026.py:90-98 | The fill call of every layer, one after the other, leaves in each the prefix cache of one causal run, and ends with that run's states |
| PagedModel.Stack.ServePrompt | relay_attention_port/attention_v026.py:63-255 | A prompt run through all layers completes the caches of all requests in every layer, and ends with the final states of causal runs over prefix and request |
| PagedModel.Stack.ServeDecode | relay_attention_port/attention_v026.py:63-255 | A decoding run through all layers, likewise |
| PagedServer.Server.constructor | relay_attention_port/attention_v026.py:63-90 | A new model serves no request and has no prefix |
| PagedServer.Server.Fill | relay_attention_port/attention_v026.py:90-98 | Filling the prefix gives the states of a causal run over it, and the model serves with that prefix |
| PagedServer.Server.Prompt | relay_attention_port/attention_v026.py:63-255 | For every number of layers and every batch of new requests of unequal lengths, padded to one length: each request's states are those of one causal run over prefix and prompt, alone, and all requests stay served |
| PagedServer.Server.Decode | relay_attention_port/attention_v026.py:63-255 | For any choice of requests, one new token each: each state is the last one of a causal run over prefix, the request's tokens so far and the new token, and all requests stay served |
| PagedServer.Server.ServedPrefix | relay_attention_port/attention_v026.py:93-98 | After any sequence of runs every layer's prefix cache is that of a causal run over the prefix |
| PagedServer.Server.ServedCache | relay_attention_port/attention_v026.py:141-149 | After any sequence of runs the paged cache of every request in every layer is the user part of the cache of a causal run over the prefix and that request's own tokens |
| PagedServer.Server.ServedOutputs | relay_attention_port/attention_v026.py:63-255 | After any sequence of runs the states returned for a request are the user part of one causal run over the prefix and all its tokens |
| PagedServer.Server.Release | relay_attention_port/attention_v026.py:141-149 | Dropping a request leaves the others served |
| PagedServer.OwnBlocksApart | relay_attention_port/attention_v026.py:141-149 | Requests whose block tables share no block, and are long enough, have slots of their own, as the runs require |
| FusionKernel.NextPowerOfTwo | relay_attention_port/relayattn_ops_v026.py:69-69 | The block size is the least power of two not below the head size |
| FusionKernel.LoadLse | relay_attention_port/relayattn_ops_v091.py:66-74 | The kernel's load of an lse value through its two strides reads the element that the tensor form reads after transposing |
| FusionKernel.StridesAre | relay_attention_port/relayattn_ops_v091.py:66-74 | A view starts at the start of its buffer, and a step along a dimension is that dimension's stride |
| FusionKernel.Program | relay_attention_port/relayattn_ops_v026.py:90-122 | One program stores the mix of its own row of lanes and no other cell |
| FusionKernel.Launch | relay_attention_port/relayattn_ops_v091.py:79-92 | For any order and repetition of programs, each output cell is stored as often as its owning program ran, and holds the kernel form if it ran at all |
| FusionKernel.CellOfProgram | relay_attention_port/relayattn_ops_v091.py:123-137 | A flat cell belongs to program (token, head) exactly when it lies in that program's row |
| FusionKernel.FusedLayout | relay_attention_port/relayattn_ops_v026.py:56-56 | The fused tensor has every cell at a place of its own within as many places as there are cells, and where the system output is dense, where that has it |
| FusionKernel.AlignedCovers | relay_attention_port/relayattn_ops_v026.py:51-62 | An aligned call, in which a cell lies at the same place in the system, user and fused tensors and its program loads its lse values, stays inside both buffers |
| FusionKernel.FlatIsNative | relay_attention_port/relayattn_ops_v026.py:51-88 | In an aligned call the kernel form of a cell is the tensor form |
| FusionKernel.ContiguousIsAligned | relay_attention_port/relayattn_ops_v026.py:51-62 | A call on contiguous output tensors is aligned, and its result is contiguous |
| FusionKernel.FuseByKernel | relay_attention_port/relayattn_ops_v026.py:9-48 | For every order of the grid, all lse strides and both layout flags, an aligned call stays inside its buffers, stores each cell exactly once, and the fused tensor, laid out as empty_like does, holds the tensor form of the fusion |
| FusionKernel.KernelExactly | relay_attention_port/relayattn_ops_v026.py:51-62 | The kernel stays inside its buffers and agrees with the tensor form, whatever the four buffers hold, if and only if the call is aligned; the operator asserts only last strides of 1 |
| FusionKernel.KernelNeedsContiguous | relay_attention_port/relayattn_ops_v091.py:59-62 | Where no two programs share their lse values, that is the case if and only if both output tensors are contiguous |
| FusionKernel.KernelNeedsContiguousUser | relay_attention_port/relayattn_ops_v091.py:56-62 | With a contiguous system output and everything else fixed, the kernel stays in range and agrees for every content of the user output if and only if that tensor is contiguous |
| BlockStore.StepKeeps | csrc/fs_io.cpp:40-113 | Every step of every process keeps the invariant: destinations hold complete blocks, each temporary file has one owner, an open load has a complete block |
| BlockStore.RunKeeps | csrc/fs_io.cpp:40-113 | The invariant holds in every reachable state of every interleaving of stores, loads, failures and crashes |
| BlockStore.PublishedIsComplete | csrc/fs_io.cpp:57-75 | A destination name never refers to anything but its initial file or the whole buffer of a store to it |
| BlockStore.LoadIsComplete | csrc/fs_io.cpp:87-113 | A load that returns 0 has filled its buffer from the first bytes of one complete block; if no complete block is longer than asked for, with the whole block |
| BlockStore.OneOwner | csrc/fs_io.cpp:50-55 | A temporary name has at most one live owner and refers to the file that owner created |
| BlockStore.OnlyOwnerTouches | csrc/fs_io.cpp:57-77 | Whoever renames, unlinks or writes the file behind a temporary name is its owner |
| BlockStore.ReturnedStoreLeavesNothing | csrc/fs_io.cpp:57-77 | A store that has returned, and whose unlink did not fail, has no temporary entry of its own |
| BlockStore.NoNewOwner | csrc/fs_io.cpp:50-55 | While a temporary name is taken, nobody becomes its owner |
| BlockStore.OrphanStays | csrc/fs_io.cpp:50-55 | A temporary file left by a crash is never renamed, removed or written afterwards |
| BlockStore.RemovesOnlyShort | csrc/fs_io.cpp:102-106 | A load decides to unlink only after it has opened and read a complete block shorter than it asked for; what its path names at the unlink may be another block |
| BlockStore.PublishedStays | csrc/fs_io.cpp:102-106 | Where no load asks for more than any complete block of its path holds, a published block stays published |
| BlockStore.StoredStays | csrc/fs_io.cpp:42-77 | Under the same condition, a store that has returned 0 has its destination published with a complete block from then on |
| BlockStore.BlocksStayExactly | csrc/fs_io.cpp:102-106 | Published blocks stay published in every run if and only if no load asks for more than a complete block of its path holds |
| BlockRemoval.RunTraced | csrc/fs_io.cpp:57-106 | In every reachable state a name refers to its initial file or to what a store to it wrote, and an initial file, once replaced under its name, never comes back |
| BlockRemoval.RemovesLongOnlyThen | csrc/fs_io.cpp:80-106 | A load whose unlink would take away a block as long as it asked for has opened a shorter one, and a store to the path has a buffer that is long enough |
| BlockRemoval.LongIsRemoved | csrc/fs_io.cpp:80-106 | Where a path has a complete block too short for a load and a store with one long enough, there is a run in which the unlink takes the long one away, with every call answered truthfully if the path is absent at the start |
| BlockRemoval.RemovalsExactly | csrc/fs_io.cpp:80-106 | With every process still to run and no temporary file left over, no load's unlink ever takes away a block as long as it asked for, if and only if no load has both a complete block of its path that is too short and a store to that path with a buffer long enough |
| BlockRemoval.LongBlockLost | csrc/fs_io.cpp:80-106 | A concrete run of two stores and a load in which the load removes the very block it asked for, against the promise to unlink only on a provable short read |
| BlockOutcome.ReturnsFirstErrno | csrc/fs_io.cpp:36-113 | In every interleaving a store or load that has returned has returned the errno of the first call that failed it, and 0 exactly if none did, whatever its clean-up met; a temporary file is left over exactly if the unlink failed |
| BlockOutcome.StoreFindsPresent | csrc/fs_io.cpp:42-44 | A store that finds its destination present returns 0 and changes nothing |
| BlockOutcome.StoreSucceeds | csrc/fs_io.cpp:42-77 | In every reachable state: a store that finds its destination absent and its temporary name free, and whose calls succeed, returns 0 with its buffer under the destination and no other name changed |
| BlockOutcome.LoadSucceeds | csrc/fs_io.cpp:87-112 | In every reachable state: a load whose path names a block that is long enough, and whose open and read succeed, returns 0 with the first bytes of that block, also if the close fails, and leaves all files as they are |
| BlockOutcome.LoadFindsShort | csrc/fs_io.cpp:102-106 | In every reachable state: a load whose block is too short, and whose calls succeed, returns EIO and removes that name only |
| BlockOutcome.CrashStops | csrc/fs_io.cpp:36-113 | A crash changes no file, and the process never makes another step |
| BlockBatch.FirstBufferWins | csrc/fs_io.cpp:203-262 | After a batch of stores a path holds its earlier content, else the first buffer the batch names for it, else nothing |
| BlockBatch.FileSystem.StoreBlock | csrc/fs_io.cpp:36-78 | Success stores exactly the absent destination; an error leaves the files as they were and is the errno of the first call that failed, whatever the unlink meets; a partial temporary file remains only if the unlink failed too; without failing calls only an existing temporary name is refused |
| BlockBatch.FileSystem.WriteTemporary | csrc/fs_io.cpp:57-63 | The temporary file holds the part of the buffer that was written, all of it on success |
| BlockBatch.FileSystem.BatchStore | csrc/fs_io.cpp:203-262 | Unequal list lengths are refused before any effect; an error at index k leaves exactly the effect of the stores before k and reports the first failing call; without a failing call the batch succeeds, or stops with EEXIST at the first absent destination whose temporary name is taken |
| BlockBatch.FileSystem.LoadBlock | csrc/fs_io.cpp:87-113 | Success copies the first bytes; a failing open or read is reported with its errno and leaves the files as they were; without failing calls a missing path gives ENOENT and a short file gives EIO and is removed |
| BlockBatch.FileSystem.BatchLoad | csrc/fs_io.cpp:272-338 | An error at index k reports k loaded blocks and the call that failed, the buffers before k hold their blocks unless reused later, and buffers used only after k are untouched; without a failing call it stops exactly at the first path that is missing (ENOENT) or too short (EIO) |
| BlockBatch.FileSystem.BatchLookup | csrc/fs_io.cpp:115-120 | One flag per path, true exactly for the paths that exist |
| BlockBatch.FileSystem.StoreThenLoad | csrc/fs_io.cpp:203-338 | Storing a batch into absent paths and loading it back returns the buffers; where a path is named twice, the first buffer; without a failing call, and with temporary names of their own, both calls succeed |
| BlockBatch.NeverBlocked | csrc/fs_io.cpp:50-55 | Temporary names that are free and are not destinations never stop a batch |
| ChunkPlan.BaseChunk | csrc/cumem_allocator.cpp:25-43 | The configured megabytes when their byte count is positive and does not wrap, else the default |
| ChunkPlan.RoundUpIsLeast | csrc/cumem_allocator.cpp:366-366 | Where the sum does not wrap, rounding up gives the least multiple of the granularity that is not smaller |
| ChunkPlan.RoundUpWraps | csrc/cumem_allocator.cpp:366-366 | Where the sum wraps, it gives 0 |
| ChunkPlan.ChunkSizeIs | csrc/cumem_allocator.cpp:413-415 | Chunk i starts inside the region, so its subtraction does not underflow, and is the smaller of the rest and the chunk size |
| ChunkPlan.ChunksTile | csrc/cumem_allocator.cpp:391-416 | The chunk sizes are positive multiples of the granularity, at most the chunk size, their running offset is i times the chunk size, and they sum to the aligned size |
| ChunkPlan.PlanExactly | csrc/cumem_allocator.cpp:366-416 | The plan for a request is as it should be if and only if none of the three round-up sums wraps in 64 bits |
| ChunkPlan.FillChunks | csrc/cumem_allocator.cpp:401-416 | The loop fills the array with the planned sizes |
| RocmAllocator.Allocator.ReserveAddress | csrc/cumem_allocator.cpp:50-71 | Success holds one new, disjoint, suitably aligned range; failure holds nothing new, unless the driver refused to free a misaligned range; one failing reservation is not the end, but is tried again without alignment |
| RocmAllocator.Allocator.CreateHandles | csrc/cumem_allocator.cpp:174-183 | Success adds distinct new handles, each of its chunk's size; a failure at any chunk is reported and restores the handles if and only if no clean-up call fails; under a pending error the first create ends the loop, and its handle stays if it succeeded |
| RocmAllocator.Allocator.StopCreating | csrc/cumem_allocator.cpp:174-183 | The clean-up restores the handles if and only if the create itself failed and no release does |
| RocmAllocator.Allocator.MapChunks | csrc/cumem_allocator.cpp:184-203 | Success maps the chunks end to end; a failure at any chunk restores the mappings if and only if no clean-up call fails; nothing outside the range changes |
| RocmAllocator.Allocator.CreateAndMap | csrc/cumem_allocator.cpp:119-240 | All or nothing over the create and map phases: handles and mappings are as before if and only if the failing call is the only one that fails; success leaves every tile accessible, zeroed and backed by a handle of its size, and takes nothing from other mappings; a failing access or memset call returns with everything mapped; the error reported is that of the first call that failed; under a pending error nothing is mapped, and a create that succeeds is not undone |
| RocmAllocator.Allocator.UnmapAndRelease | csrc/cumem_allocator.cpp:242-286 | Every chunk is unmapped and every handle released whatever happens to the others, and the first failure is reported |
| RocmAllocator.ReleaseUndoes | csrc/cumem_allocator.cpp:275-280 | Releasing what was created restores the set of handles if and only if no release fails |
| RocmAllocator.UnmapUndoes | csrc/cumem_allocator.cpp:263-273 | Unmapping what was mapped restores the mappings if and only if no unmap fails; in any case nothing outside the range changes |
| SleepMode.LiveRangesDisjoint | csrc/cumem_allocator.cpp:346-474 | The ranges of live allocations are disjoint |
| SleepMode.Pool.constructor | csrc/cumem_allocator.cpp:346-366 | A new pool owns nothing and satisfies the invariant: every live allocation keeps its base reserved, an awake one is exactly tiled by its handles, a sleeping one has no handle and no mapping |
| SleepMode.Pool.Malloc | csrc/cumem_allocator.cpp:346-474 | Success adds one allocation at a new aligned base, following the chunk plan, tiled by new handles of the chunks' sizes, accessible and zeroed; failure leaves every live allocation as it was, and all of the driver's tables if the failing call is the only one; without a pending error and a failing driver call it succeeds |
| SleepMode.Pool.Free | csrc/cumem_allocator.cpp:477-594 | When no driver call fails, which takes the recorded size, the reservation, the handles and the mappings of the allocation are gone and nothing else has changed, awake or asleep |
| SleepMode.Pool.Sleep | csrc/cumem_allocator.cpp:622-741 | With others reserving addresses between the free and the re-reserve, sleep holds exactly the old address or reports an error, a pending one included; when it holds, the reservations are the old ones and those others took; a stray reservation remains only if the driver refused to free it |
| SleepMode.Pool.Placeholder | csrc/cumem_allocator.cpp:713-728 | The re-reservation asks for the old address, and is accepted only there |
| SleepMode.Pool.Wake | csrc/cumem_allocator.cpp:743-809 | Success tiles the old range again with new handles in the old chunk sizes, accessible and zeroed; a clean rollback leaves the allocation asleep; any other failure, a pending error included, is reported |
| SleepMode.Pool.Run | csrc/cumem_allocator.cpp:346-809 | Over any sequence of calls the invariant holds, and the memory of every awake allocation stays accessible and backed by handles of its chunks' sizes; an allocation that is not freed, and whose sleeps and wakes report no error, keeps its base, size and chunks; if no call reports an error, every reservation is of a live allocation or of others, and if everything is freed, no handle and no mapping is left, and no reservation but those others had and have made since |
| SleepMode.UsableKept | csrc/cumem_allocator.cpp:119-240 | What is mapped for one allocation takes access and backing from no other |
| SleepMode.NothingLeft | csrc/cumem_allocator.cpp:477-594 | With no live allocation and nothing lost to an error, the driver holds no handle and no mapping |
| GraphSizes.PadUnique | relay_attention_port/config_v091.py:4335-4340 | At most one value is the padding of a batch size |
| GraphSizes.PadMonotone | relay_attention_port/config_v091.py:4335-4340 | Padding is monotone |
| GraphSizes.PadIdempotent | relay_attention_port/config_v091.py:4335-4340 | A padded size pads to itself |
| GraphSizes.CompilationConfig.InitWithCudagraphSizes | relay_attention_port/config_v091.py:4112-4160 | The capture sizes end up in descending order, the user's own without repetition, and the table gives every batch size up to the largest its least captured size |
| GraphSizes.CompilationConfig.FillInterval | relay_attention_port/config_v091.py:4152-4158 | One interval of the table is filled correctly and the rest untouched |
| GraphSizes.CompilationConfig.PadForCudagraph | relay_attention_port/config_v091.py:4335-4340 | Every batch size up to the largest captured one gets its padding; a larger one is an error |
| GraphSizes.CaptureList | relay_attention_port/config_v091.py:4587-4608 | An empty list of sizes is an error unless eager mode is enforced; otherwise exactly those sizes are captured that are asked for (with one configured value 1, 2, 4 and the multiples of 8 up to it), fit the token budget and, with sequence parallelism, are multiples of the tensor-parallel size |
| GraphSizes.WasteAtMost7 | relay_attention_port/config_v091.py:4591-4595 | With one configured value padding wastes at most 7 slots |
| GraphSizes.PaddedDivisible | relay_attention_port/config_v091.py:4508-4526 | With sequence parallelism every padded size is a multiple of the tensor-parallel size |
| GraphSizes.VllmConfig.SetCudagraphSizes | relay_attention_port/config_v091.py:4587-4611 | The whole set-up: when it raises, which sizes are captured, the user's own or the default ones, and for the default ones the two bounds above for every batch size in the table |
| SystemPrompt.SplitPoint | relay_attention_port/config_v026.py:437-446 | The schema is accepted exactly if its first user field is not at the start and a system field precedes it, and it is split at that user field |
| SystemPrompt.SystemPromptConfig.constructor | relay_attention_port/config_v026.py:413-449 | Files win over direct arguments, the prompt is stripped, and with a non-empty prompt the configuration is accepted exactly for splittable schemas, whose halves it stores |
| SystemPrompt.SystemPromptConfig.Split | relay_attention_port/config_v026.py:437-446 | The stored halves make the schema, the second beginning with the first user field |
| SystemPrompt.HalvesMakeTheWhole | relay_attention_port/config_v026.py:451-460 | Two texts that format separately, each with its own argument, format together with both arguments to the one result followed by the other |
| SystemPrompt.HalvesFormatExactly | relay_attention_port/config_v026.py:451-460 | Of a text that formats as a whole with both arguments, the halves format separately if and only if each half parses and mentions only its own argument |
| SystemPrompt.ModesAgree | relay_attention_port/config_v026.py:451-460 | For every accepted configuration and user prompt, where the shared prefix and the bare request format, the full request is the one followed by the other |
| SystemPrompt.RelayFormatsExactly | relay_attention_port/config_v026.py:451-460 | Where the full request formats, the two-part mode formats if and only if the halves of the schema parse and mention only their own argument |
| SystemPrompt.DocumentedSchema | relay_attention_port/config_v026.py:410-412 | A schema of the documented form always formats, whatever the prompts contain, with the prompts in place of the fields |
| SystemPrompt.DocumentedSplit | relay_attention_port/config_v026.py:410-446 | A schema of the documented form is accepted, and split before its user field |
| SystemPrompt.DocumentedTexts | relay_attention_port/config_v026.py:451-460 | In a configuration with such a schema the shared prefix, the bare request and the full request are its texts with the stripped system prompt and the stripped user prompt in place of the fields, whatever they contain |
| SystemPrompt.StripParts | relay_attention_port/config_v026.py:434-434 | A text is its stripped form with white space before and after |
| SystemPrompt.StripUnique | relay_attention_port/config_v026.py:434-434 | Of no other text without white space at its ends can that be said |
| SystemPrompt.EscapedUserField | relay_attention_port/config_v026.py:437-446 | A schema that passes the constructor's checks and formats as a whole, but whose shared prefix does not format: the split falls inside a doubled brace |
| FormatString.FormatConcat | relay_attention_port/config_v026.py:452-459 | If a first part formats, the whole formats exactly when the rest does, to the two results one after the other |
| FormatString.FormatMoreArguments | relay_attention_port/config_v026.py:452-459 | More arguments never change what a format call returns |
| FormatString.FormatFewerArguments | relay_attention_port/config_v026.py:452-459 | What formats with more arguments formats with those it mentions |
| FormatString.FormatMentions | relay_attention_port/config_v026.py:452-459 | What formats parses and mentions only arguments that are given |
| FormatString.FormatPart | relay_attention_port/config_v026.py:452-459 | A first part that parses on its own formats if the whole does |
| FormatFields.FieldRoundTrip | relay_attention_port/config_v026.py:452-459 | A field written out from a name with attributes and indices, a conversion and a specification parses to these parts |
| FormatFields.FormatField | relay_attention_port/config_v026.py:452-459 | It formats to the presentation of its argument with its path, its conversion and its specification, in which fields are expanded first |
| SpinLoop.RunKeeps | csrc/spinloop.cpp:93-168 | In every interleaving with writers: where the monitor covers the buffer, a waiter asleep on an untriggered monitor has a false predicate, and the counter stays within 32 bits |
| SpinLoop.NoWakeUpLost | csrc/spinloop.cpp:91-152 | No predicate and no interleaving leaves the waiter in an untriggered wait while the predicate holds, if and only if the buffer, where it is monitored, lies in one monitored line; only its length is checked |
| SpinLoop.LostWakeUp | csrc/spinloop.cpp:91-152 | For every buffer that crosses a line, a predicate and a run in which the waiter sleeps through the write it waits for |
| SpinLoop.NeverAsleepWhenReady | csrc/spinloop.cpp:126-152 | Where the monitor covers the buffer, the waiter is never in an untriggered wait while the predicate on it holds |
| SpinLoop.ReturnsPromptly | csrc/spinloop.cpp:93-152 | From when the predicate holds for good, whatever else is written between the steps, the waiter returns within three of its own steps even if only the monitor wakes it, and returns True unless a step fails or times out |
| SpinLoop.OutcomeExactly | csrc/spinloop.cpp:94-123 | True is returned exactly if a callback answered true, False exactly if a clock sample was at or past the timeout, an error exactly if the callback raised or the clock failed; each happens at most once |
| SpinLoop.TimedOutExactly | csrc/spinloop.cpp:117-119 | For any start and any number of nanoseconds later, carried into seconds, the timeout is reached if and only if those nanoseconds are at least the timeout |
| SpinLoop.TimedOutStays | csrc/spinloop.cpp:117-119 | Once reached it stays so at later readings |
| SpinLoop.NoTimeoutNeverFalse | csrc/spinloop.cpp:89-109 | Without a timeout the waiter never returns False |
| SpinLoop.SamplesExactly | csrc/spinloop.cpp:109-124 | In any stretch of any run the early clock samples are exactly the iterations at multiples of 16, also where the 32-bit counter wraps |
| SpinLoop.SampledEverySixteen | csrc/spinloop.cpp:107-124 | In any n iterations there are at least n/16 samples and at most (n+15)/16 |
| SpinLoop.ReturnsAfterTimeout | csrc/spinloop.cpp:107-123 | Once as many nanoseconds as the timeout have passed, the waiter returns within eighty of its own steps, whatever is written meanwhile |
| SpinLoop.Machine.Next | csrc/spinloop.cpp:93-94 | Writes come between any two steps of the loop, and those to the monitored line trigger an armed monitor |
| SpinLoop.Machine.Call | csrc/spinloop.cpp:94-105 | A callback that raises returns an error, one that answers true returns True, else the loop goes on |
| SpinLoop.Machine.Sample | csrc/spinloop.cpp:109-123 | A failing clock returns an error, a late one False, else the loop goes on |
| SpinLoop.Machine.ArmAndWait | csrc/spinloop.cpp:128-151 | Arming clears the trigger, the second look may return, and the wait ends when the monitor is triggered or the processor wakes |
| SpinLoop.Machine.Spin | csrc/spinloop.cpp:87-180 | The loop returns what the protocol returns for every script of writes and answers, and goes on exactly while the protocol does |
| PromptQueue.StepKeeps | benchmarks/benchmark_hidden_state_extraction.py:142-176 | Every step keeps the invariant: the queue is the untaken prompts and a sentinel per running client, every taken prompt is once in the results or with a client, nobody stops before the last prompt is taken |
| PromptQueue.NobodyBlocks | benchmarks/benchmark_hidden_state_extraction.py:142-146 | In every interleaving a client that has not stopped can make its next step: nobody waits on an empty queue |
| PromptQueue.StoppedAfterLastPrompt | benchmarks/benchmark_hidden_state_extraction.py:143-146 | A client takes a sentinel only when no prompt is left in the queue |
| PromptQueue.RunLength | benchmarks/benchmark_hidden_state_extraction.py:250-256 | With at least one client, all clients have stopped exactly when two steps for each prompt and one for each client have been made, and never more are made |
| PromptQueue.AllProcessed | benchmarks/benchmark_hidden_state_extraction.py:239-256 | When all clients have stopped every prompt has been processed exactly once, the queue is empty and every item has been marked done |
| PromptQueue.TotalIsOfPrompts | benchmarks/benchmark_hidden_state_extraction.py:264-264 | The reported total is the prompts' own number of tokens, in whatever order they complete |
| PromptQueue.Extraction.constructor | benchmarks/benchmark_hidden_state_extraction.py:239-255 | The two loops put the prompts in order and then a sentinel per client, and all clients wait |
| PromptQueue.Extraction.Advance | benchmarks/benchmark_hidden_state_extraction.py:142-176 | One step of a client's loop is a step of the protocol |
| PromptQueue.RunExtraction | benchmarks/benchmark_hidden_state_extraction.py:239-264 | Under any schedule, if all clients stop the results are those of the prompts, each once, with their total; and they stop exactly after the counted number of steps |

## Left out

- The attention kernels (flash attention, paged attention, memory-efficient attention) are taken to compute exact softmax attention and its lse over their context.
- Floating-point rounding and overflow: attention and fusion are over the reals, and `exp` is any positive function with exp(x+y) = exp(x)exp(y).
- Sliding windows, ALiBi biases and the choice of paged-attention variant.
- PagedAttention.AttentionLayer.Forward: says only the shape of the output of the memory-profiling run, a decoding run without caches, when a prefix is fused into it, because that output is discarded.
- FusionKernel.FuseByKernel: requires an aligned call, because without that the kernel reads other rows; FusionKernel.KernelExactly shows that the condition is exact.
- FusionKernel.KernelExactly: requires exp(1) to differ from 1, because with a constant function for exp the lse values would not matter; it takes the fused tensor to be in a buffer of its own, with the strides of a dense system output and contiguous otherwise.
- PagedServer.Server.Prompt: requires that requests have slots of their own and block tables that cover their tokens, because the block manager that gives them out is not part of the model; the same holds for PagedServer.Server.Decode.
- PagedServer.Server.Fill: requires that no request is being served, because the caches of running requests belong to the prefix they were computed with.
- The scheduler, sampling and the layers besides attention: which requests run next and with which token is any choice, and what a layer does to one token's state is any function.
- Softmax.FusionIsConcatenation: requires both key lists non-empty, because an empty list has no finite lse.
- The relay backend wrapper and the integration example beside the ported layer, which combine outputs in another way.
- Direct I/O alignment, the creation of parent directories (one call that may fail) and durability over power loss in the block store.
- BlockBatch.FileSystem.StoreBlock: takes the existence check as exact, because the class is the sequential view; the protocol in BlockStore lets the check fail for any reason.
- BlockBatch.FileSystem.LoadBlock: takes a read as short only where the file is short, because regular files are read whole, and leaves out the closes whose result is ignored, which BlockStore has.
- BlockStore.LoadIsComplete: says the first bytes of a complete block where a complete block may be longer than the buffer, because the source reads no further.
- The CUDA branches of the allocator, reference counts, the GIL, and argument parsing and buffer release of the extension modules.
- Context creation, host memory allocation and the Python callbacks of the allocator are assumed to succeed; the early exits of malloc that follow from their failure are not modelled.
- SleepMode.Pool.Malloc: requires that the chunk sums do not wrap, because ChunkPlan.PlanExactly shows that otherwise there is no plan; SleepMode.Pool.Run requires it of every malloc.
- ChunkPlan.FillChunks: does not model the wrap-around of the loop counter, which has the type int, because it needs 2^31 chunks.
- RocmAllocator.Allocator.CreateAndMap: says of the contents of memory only that they are zero when the call returns, because what the device writes afterwards is not part of the model.
- The array of handle cells is kept as a sequence in the allocation's record once it has been filled.
- The V0 branch of the capture-size set-up, its use of larger sizes, and the compile sizes.
- FormatString.FormatConcat: does not say which exception a failing format call raises; a failure is None. What a conversion, an attribute access or a specification does to a string is a parameter.
- Reading the system prompt files; their contents are arguments.
- SpinLoop.ReturnsPromptly: takes a callback's read of the buffer as one step, because the callback is Python code that the loop cannot see.
- SpinLoop.NoWakeUpLost: takes the monitored line to have the largest size the processor reports and to be aligned to it, because the source asks for no other size.
- The failure of the first clock reading, before the spin loop, and the detection of the processor's monitor support.
- PromptQueue.AllProcessed: takes every request to yield a finished output, because a client whose request does not ends with an exception and the benchmark with it.
- The remaining checks of the two configuration files are independent tests of single values; the build scripts, the other benchmarks and the examples are input, output and measurement. None of them keeps state or has a property that spans functions.
