# easy_ntt: a verified model

This project models the parts of `easy_ntt` where the code is hardest to get right, and proves what they are for. TensorRT, CUDA and the allocator are small abstract machines around the repository's own logic; what they answer is a parameter of each call.

- **The inference engine** (`Engine*.dfy`, `Streams.dfy`, `TensorModel.dfy`, `CudaMemory.dfy`, `HostSchedules.dfy`, `HostRaces.dfy`). `EngineSpec` is the engine as a state machine; `Engine.TensorRTEngine` is the engine as an object with fields updated in place, each method proved to do to its state exactly what the state machine says and to keep the invariant. The theorems over runs are about the state machine: captured graphs always equal a fresh enqueue, addresses resolve as intended and never move once frozen, the two layers of size bookkeeping agree, handles are destroyed exactly once, an inference loop captures at most twice, and under every order the device may choose the host reads the bytes sequential execution would give, exactly for bindings on the device. `EngineCalls` says of every call exactly when it succeeds and what it leaves, in terms of the state before it; `EngineEcho` holds the concrete runs, from construction, that break what does not hold.
- **Voxelization** (`SlotClaim.dfy`, `VoxelGrid.dfy`, `Voxels.dfy`, `Pillars.dfy`, `PillarFeatures.dfy`, `VoxelPipeline.dfy`). Threads claim slots with atomic increments and write their records word by word, interleaved in any way; the three kernels are proved on their buffers and then composed.
- **Preprocessing** (`BFloat16.dfy`, `Fusion.dfy`, `Gather.dfy`, `PlanarPack.dfy`, `StridedCopy.dfy`).
- **Bird's-eye-view pooling** (`BevPool.dfy`) for any addition and multiplication.
- **Plugin serialization** (`Serialize.dfy`).

`ThreadOrder.dfy`, `RowBuffer.dfy` and `FlatIndex.dfy` hold what several kernels share: threads listed in any order, buffers as rows, row-major indices. A kernel's threads, and the iterations inside a block, run in any order given by a listing of them; where they communicate through atomics, in any interleaving of their atomic steps.

## What turned out false, and when it holds

- The promise that every schedule gives the host the sequential bytes holds if and only if TensorRT locates none of the bindings copied to and from on the host (`SequentialIffOnDevice`). A host-located binding gets page-locked memory; copies to and from it happen when they are issued, while only a stream is made to wait. `OutputRun` and `InputRun` are runs from construction that fail. No loop escapes that reads a host-located output (`EveryHostReadRaces`) or writes other data to a host-located input after a result has been read (`EveryHostWriteRaces`), with one exception: a read of memory that a stream has already copied to the same destination (`Unread`).
- Inference launches with a user's address, but `SetInputData` and `GetOutputData` copy to and from the tensor's own memory: `InputArrivesIff` and `ReadDeliversIff` say exactly when a copy and a launch use the same address; `OverrideMissesData` and `GrowthMissesResult` are runs from construction where they do not.
- `InferAsync` never refreshes outputs, so after `SetBindingShape` an output may have less room than its inferred shape needs; and `SetInputData` never tells the context, so neither need an input. `LaunchOverrunsIff` says exactly when, and `LargerShapeOverruns` is a run from construction. Bindings fit while shapes stay as constructed, outputs after every successful refresh, and an input is launched with the shape of its data exactly when the caller gave both calls the same one (`LaunchedAsSetIff`).
- A read that makes an output larger gives its old memory back on the internal stream before that stream waits for the inference. With the frees counted in, a loop over device bindings is free of races if and only if no read does so right after an inference on another stream (`FreesAreOrderedIff`); `EarlyFreeHappens` is a run that does, and a frozen engine never does (`ReadFreesIff`).
- `Tensor::Resize(bytes)` keeps the capacity when it shrinks, but the memory's own byte count goes down, so a later `Reshape` may succeed and leave a tensor none of whose copies is accepted. `CopyAfterResizeAndReshape` says exactly when they are. The engine itself never shrinks this way (`LayersAlwaysAgree`).
- Two captures, not one, are what an inference loop may cost: the frozen refresh behind a read can change an output's dimensions after the first capture. `SecondCaptureIff` says exactly when it does, from the shapes before the loop, and `TwoCapturesHappen` is a run from construction. A tensor grown by bytes keeps its old dimensions until the next refresh (`RefreshedOutputsFollow`).
- The serial and the parallel fusion kernels disagree about overflow when the feature count does not survive the cast to `int`: they agree for all masks if and only if `min(image_token_count, seq_len) <= (int)image_token_count` (`FlagsAgreeIff`, `PathsDisagree`).
- The gather launcher casts the number of tokens to `unsigned int`; for the sizes it can launch at all (`RefusedIff`), its success means that all ids are in range, for all inputs of a size, exactly when that size fits (`SuccessMeansInRangeIff`).
- The feature kernel's shared rows belong to one thread each if and only if a pillar has at most 64 points (`SharedRowsApartIff`), and the feature results are stated for those.
- The bfloat16 conversion keeps what is not a number exactly for magnitude patterns strictly between `0x7F808000` and `0x7FFF8000` (`NaNSurvivesIff`).
- The comments at `src/plugins/bev_pool_v2/trt_bev_pool_kernel.cu:19-20` describe `interval_lengths` and `interval_starts` with each other's meaning; the model follows the code.

## Model

| member | source | states |
|---|---|---|
| Streams.RaceFreeIsDeterministic | src/tensorrt_engine/tensorrt_engine.cpp:863-892 | if no two memory operations are left unordered by streams and events, every order the device may choose leaves memory and host as if each operation had finished before the next was issued |
| Streams.LegalRespectsBefore | src/tensorrt_engine/tensorrt_engine.cpp:888-892 | chains of stream order, record and wait bind every legal schedule, not only single links |
| Streams.LastCommutesToEnd | src/tensorrt_engine/tensorrt_engine.cpp:863-892 | the last operation issued can be carried out last without changing the outcome |
| CudaMemory.CudaBaseMemory.AllocateMemory | src/driver/cuda_base_memory.cpp:212-250 | reuse within capacity, else free and reallocate; sizes after each outcome, failures included |
| CudaMemory.CudaBaseMemory.FreeMemory | src/driver/cuda_base_memory.cpp:181-210 | afterwards there is no address, and every nonempty copy at any offset is refused until memory is allocated again |
| CudaMemory.AllocateExactly | src/driver/cuda_base_memory.cpp:212-250 | memory is kept exactly when it is large enough; otherwise it is what the driver gives, of just the size asked for, or none |
| CudaMemory.CopiesExactly | src/driver/cuda_base_memory.cpp:65-90 | when a copy goes through, is refused or would abort, and the address it uses |
| TensorModel.ProductMonotone | src/tensorrt_engine/tensor.cpp:154-162 | products of positive dimensions are positive and grow with each dimension |
| TensorModel.ProductAppends | src/tensorrt_engine/tensor.cpp:126-133 | the number of elements is one for no axes and each axis multiplies |
| TensorModel.Tensor.Resize | src/tensorrt_engine/tensor.cpp:117-136 | the product loop with its early stop at a negative axis, type, counts and capacity, on success and on each failure |
| TensorModel.Tensor.ResizeBytes | src/tensorrt_engine/tensor.cpp:138-147 | the byte-only overload leaves the dimensions alone and takes the memory's capacity |
| TensorModel.Tensor.Reshape | src/tensorrt_engine/tensor.cpp:149-172 | succeeds exactly when the shape is static and fits the capacity; otherwise nothing changes |
| TensorModel.ResizeExactly | src/tensorrt_engine/tensor.cpp:117-136 | dimensions, type, elements, bytes and capacity after a resize to any shape, negative axes and unsupported types included |
| TensorModel.ResizeBytesExactly | src/tensorrt_engine/tensor.cpp:138-147 | what the byte-only overload changes and what it leaves |
| TensorModel.ReshapeExactly | src/tensorrt_engine/tensor.cpp:149-172 | exactly when a shape is taken in place, by its axes and the capacity, and the tensor then |
| TensorModel.ElementSizes | src/tensorrt_engine/tensor.cpp:74-108 | the bytes of an element of each type |
| TensorModel.CopyAfterResizeAndReshape | src/tensorrt_engine/tensor.cpp:138-172 | after shrinking by bytes and reshaping, a copy of the whole tensor is accepted if and only if the new shape fits in those bytes |
| TensorModel.ShrinkThenReshapeRefusesCopies | src/driver/cuda_base_memory.cpp:66-69 | a concrete tensor whose copies are refused after a successful Reshape |
| Engine.TensorRTEngine.ResetCudaGraph | src/tensorrt_engine/tensorrt_engine.cpp:970-981 | leaves no graph and keeps handles conserved: each handle ever created stays destroyed exactly once or held |
| Engine.TensorRTEngine.CaptureOn | src/tensorrt_engine/tensorrt_engine.cpp:914-962 | succeeds exactly when no step of the capture failed, then holds a graph equal to the context, otherwise leaves none, and no outcome loses or doubly destroys a handle |
| Engine.TensorRTEngine.LaunchInference | src/tensorrt_engine/tensorrt_engine.cpp:565-580 | from a current cache, appends to the device program exactly what a direct enqueue would append, whichever way it launches, and leaves the cache current |
| Engine.TensorRTEngine.WaitInputs | src/tensorrt_engine/tensorrt_engine.cpp:552-559 | the waits issued before an inference, up to the first that fails |
| Engine.TensorRTEngine.BindIOAddresses | src/tensorrt_engine/tensorrt_engine.cpp:894-912 | addresses bound in table order, overrides first, up to the first that is rejected |
| Engine.TensorRTEngine.RecordOutputs | src/tensorrt_engine/tensorrt_engine.cpp:873-886 | one fresh event per output, kept even when a later one fails |
| Engine.TensorRTEngine.UpdateOutputShapes | src/tensorrt_engine/tensorrt_engine.cpp:620-674 | each output grown and rebound, or reshaped in place, up to the first failure; frozen engines never reallocate |
| Engine.TensorRTEngine.InferAsync | src/tensorrt_engine/tensorrt_engine.cpp:540-582 | from the invariant, success, state and device operations are those of an inference without graphs, and the invariant is kept; on every path the whole new state |
| Engine.TensorRTEngine.SetInputData | src/tensorrt_engine/tensorrt_engine.cpp:425-475 | checks, reshape or growth, copy and event, with the state each early return leaves; keeps the invariant of the object (a captured graph equals the context, handles are conserved, frozen addresses are resolved) |
| Engine.TensorRTEngine.GetOutputData | src/tensorrt_engine/tensorrt_engine.cpp:479-515 | the refresh whose result is ignored, the size check, the wait and the copy; keeps the invariant of the object (a captured graph equals the context, handles are conserved, frozen addresses are resolved) |
| Engine.TensorRTEngine.SetBindingShape | src/tensorrt_engine/tensorrt_engine.cpp:586-608 | keeps the invariant of the object (a captured graph equals the context, handles are conserved, frozen addresses are resolved), although the context a graph was captured for changes |
| Engine.TensorRTEngine.SetOptimizationProfile | src/tensorrt_engine/tensorrt_engine.cpp:610-618 | keeps the invariant of the object (a captured graph equals the context, handles are conserved, frozen addresses are resolved), also when the switch fails |
| Engine.TensorRTEngine.SetBindingAddress | src/tensorrt_engine/tensorrt_engine.cpp:678-691 | keeps the invariant of the object (a captured graph equals the context, handles are conserved, frozen addresses are resolved), although a context address changes |
| Engine.TensorRTEngine.FreezeIO | src/tensorrt_engine/tensorrt_engine.cpp:703-716 | keeps the invariant of the object, and by `FreezePromise`: on a loaded, persistent engine that is not frozen it succeeds if and only if every output passes the refresh and every address an inference will use is accepted; then every output has room for the shape inferred for it, its size, and its dimensions unless it grew, every address is the override or the memory as it is then, and nothing else has changed; otherwise the engine is not frozen |
| Engine.TensorRTEngine.SetStream | src/tensorrt_engine/tensorrt_engine.cpp:300-305 | keeps the invariant of the object (a captured graph equals the context, handles are conserved, frozen addresses are resolved) |
| Engine.TensorRTEngine.EnableCudaGraph | src/tensorrt_engine/tensorrt_engine.cpp:364-370 | keeps the invariant of the object (a captured graph equals the context, handles are conserved, frozen addresses are resolved): no graph outlives its being enabled |
| Engine.TensorRTEngine.CaptureCudaGraph | src/tensorrt_engine/tensorrt_engine.cpp:372-387 | keeps the invariant of the object, and by `CapturePromise`: it succeeds if and only if the engine is loaded, every wait succeeds, graphs are enabled, I/O is frozen and no step of the capture fails; then a new graph is held, equal to the context and taken for the shapes as they are; a failure after the waits leaves none, one before them the graph as it was |
| Engine.TensorRTEngine.Cleanup | src/tensorrt_engine/tensorrt_engine.cpp:279-292 | from the invariant, every graph and executable ever created has then been destroyed exactly once |
| Engine.TensorRTEngine.AllocateInputs | src/tensorrt_engine/tensorrt_engine.cpp:157-209 | inputs at max profile or engine shape, bound, with the context's shapes set |
| Engine.TensorRTEngine.AllocateOutputs | src/tensorrt_engine/tensorrt_engine.cpp:211-275 | outputs at inferred, profile, merged or engine shape |
| Engine.TensorRTEngine.AllocateIOBindingsMemory | src/tensorrt_engine/tensorrt_engine.cpp:134-275 | both phases: the tensors and the context that the state machine's allocation gives |
| Engine.TensorRTEngine.constructor | src/tensorrt_engine/tensorrt_engine.cpp:39-126 | a loaded engine, configuration normalised, bindings allocated, frozen if asked, satisfies the invariant of the object |
| EngineInvariants.LaunchIsEnqueue | src/tensorrt_engine/tensorrt_engine.cpp:565-580 | from a current cache, all three ways of launching issue exactly the launch of a direct enqueue and keep the cache current |
| EngineInvariants.ReplayRefinesEnqueue | src/tensorrt_engine/tensorrt_engine.cpp:540-582 | InferAsync leaves the state and the device program that inference without any graph would leave, apart from the cache |
| EngineInvariants.CaptureKeeps | src/tensorrt_engine/tensorrt_engine.cpp:914-962 | exactly when capturing succeeds, and that no outcome loses or doubly destroys a handle |
| EngineInvariants.BindResolves | src/tensorrt_engine/tensorrt_engine.cpp:894-912 | after a successful bind every address is the override, or else the tensor's memory |
| EngineInvariants.StepKeeps | src/tensorrt_engine/tensorrt_engine.cpp:298-716 | every call keeps: a captured graph is enabled, frozen, live and equal to the context; handles are conserved; frozen addresses are resolved |
| EngineInvariants.ConstructEstablishes | src/tensorrt_engine/tensorrt_engine.cpp:39-126 | construction establishes that invariant |
| EngineInvariants.RunKeeps | src/tensorrt_engine/tensorrt_engine.cpp:298-716 | any sequence of calls, failing ones included, keeps it |
| EngineInvariants.EveryInferenceActsLikeEnqueue | src/tensorrt_engine/tensorrt_engine.cpp:540-582 | after any calls, an inference has the memory effect of one without graphs |
| EngineInvariants.EveryLaunchUsesResolvedAddresses | src/tensorrt_engine/tensorrt_engine.cpp:561-580 | after any calls, a successful inference issues one launch, with current shapes and resolved addresses, between its waits and its events |
| EngineInvariants.FrozenStep | src/tensorrt_engine/tensorrt_engine.cpp:456-460 | on a frozen engine no call moves memory, an override or a context address |
| EngineInvariants.FrozenNeverMoves | src/tensorrt_engine/tensorrt_engine.cpp:652-716 | once frozen, always frozen and nothing moves, over any run |
| EngineInvariants.NoHandleLeaks | src/tensorrt_engine/tensorrt_engine.cpp:914-981 | live handles are those of the captured graph; after the destructor each handle ever created was destroyed exactly once |
| EngineCalls.WaitsExactly | src/tensorrt_engine/tensorrt_engine.cpp:552-559 | the waits are one for every input with an event and succeed if each does |
| EngineCalls.BindsExactly | src/tensorrt_engine/tensorrt_engine.cpp:894-912 | binding succeeds if and only if every address is accepted; then every tensor's address is the user's or its memory's, and no other changes |
| EngineCalls.RecordsExactly | src/tensorrt_engine/tensorrt_engine.cpp:873-886 | recording gives every output a new event, recorded there, and touches no other |
| EngineCalls.RecordsApart | src/tensorrt_engine/tensorrt_engine.cpp:873-886 | no two outputs the same event |
| EngineCalls.InferSucceedsIff | src/tensorrt_engine/tensorrt_engine.cpp:540-582 | exactly when an inference succeeds: loaded, waits, addresses unless frozen, the launch that applies, and the events |
| EngineCalls.CaptureCallPromises | src/tensorrt_engine/tensorrt_engine.cpp:372-387 | exactly when a capture by hand succeeds, and the graph, the shapes and the handles on each outcome |
| EngineCalls.HeldGraphLasts | src/tensorrt_engine/tensorrt_engine.cpp:565-577 | a graph held for the shapes as they are is replayed by every later inference, whatever inputs are set |
| EngineCalls.CapturedByHandOnce | src/tensorrt_engine/tensorrt_engine.cpp:372-387 | after a successful capture by hand no run of inputs and inferences captures again |
| EngineCalls.EnablingDecides | src/tensorrt_engine/tensorrt_engine.cpp:364-370 | once graphs are enabled, the next inference of a frozen engine captures one unless one is held; once disabled, none is held or captured |
| EngineCalls.RefreshSucceedsIff | src/tensorrt_engine/tensorrt_engine.cpp:620-674 | a refresh succeeds if and only if no output stops it |
| EngineCalls.RefreshRebinds | src/tensorrt_engine/tensorrt_engine.cpp:652-664 | a refresh gives the context the new address of an output that grew and leaves every other address |
| EngineCalls.FreezeCallPromises | src/tensorrt_engine/tensorrt_engine.cpp:703-716 | exactly when a freeze succeeds, from the state before it, and what it leaves on each outcome |
| EngineCalls.FrozenNeverOverruns | src/tensorrt_engine/tensorrt_engine.cpp:703-716 | after any calls and a successful freeze, no inference goes past the end of an output until a shape is changed |
| EngineCalls.ReadRefreshes | src/tensorrt_engine/tensorrt_engine.cpp:494-505 | a read leaves the outputs refreshed, also when it fails, and a frozen engine without dynamic axes as it was |
| EngineCalls.InputTakenIff | src/tensorrt_engine/tensorrt_engine.cpp:425-475 | exactly when data is taken for an input, by axes, bytes, room and the runtime's answers |
| EngineCalls.BindShapeIff | src/tensorrt_engine/tensorrt_engine.cpp:586-608 | exactly when a shape is accepted, and that only the context's shape and a frozen engine's graph change |
| EngineCalls.BindAddressIff | src/tensorrt_engine/tensorrt_engine.cpp:678-691 | exactly when an address is accepted, and what changes |
| EngineCalls.SwitchProfileIff | src/tensorrt_engine/tensorrt_engine.cpp:610-618 | exactly when a profile is taken, and that no graph survives |
| EngineCalls.UseStreamIff | src/tensorrt_engine/tensorrt_engine.cpp:300-305 | exactly when a stream is taken, the stream used then, and no graph |
| EngineCalls.CleanedUp | src/tensorrt_engine/tensorrt_engine.cpp:279-292 | after cleaning up nothing is held and no call does anything but set a flag |
| EngineCalls.ConstructedMode | src/tensorrt_engine/tensorrt_engine.cpp:39-126 | options count for persistent engines only, and a constructed engine is frozen exactly when it is persistent, asked to freeze and passes the freeze |
| EngineCalls.ConstructedTensor | src/tensorrt_engine/tensorrt_engine.cpp:134-275 | before any freeze every binding's tensor has the shape of its profile, inference or declaration, the bytes of its type, the memory the allocator gave, on the host or the device, and its address in the context |
| EngineCapacity.SetInputSucceedsIff | src/tensorrt_engine/tensorrt_engine.cpp:425-475 | exactly when SetInputData succeeds, with no condition from the bounds check, and the operations it then issues |
| EngineCapacity.GetOutputSucceedsIff | src/tensorrt_engine/tensorrt_engine.cpp:479-515 | exactly when GetOutputData succeeds, and the operations it then issues |
| EngineCapacity.MakeRoomGrows | src/tensorrt_engine/tensorrt_engine.cpp:456-466 | exactly when an input shape finds room, and that a shape within capacity moves no memory |
| EngineCapacity.AllocationEquips | src/tensorrt_engine/tensorrt_engine.cpp:134-275 | every binding gets a sound tensor of its type and place, inputs with the capacity of their profile |
| EngineCapacity.RunGrows | src/tensorrt_engine/tensor.cpp:117-172 | over any run sizes stay in agreement and capacities never shrink |
| EngineCapacity.LayersAlwaysAgree | src/tensorrt_engine/tensor.cpp:117-172 | after any run with successful allocations the two layers agree for every tensor and a whole copy is accepted |
| EngineCapacity.MaxProfileNeverGrows | src/tensorrt_engine/tensorrt_engine.cpp:168-183 | after any run, an input allocated at its max profile takes any shape within it without moving; only the copy or the event can fail |
| EngineRecapture.RefreshIsIdempotent | src/tensorrt_engine/tensorrt_engine.cpp:626-673 | refreshing the outputs of a frozen engine twice is refreshing them once, also when it fails half way |
| EngineRecapture.RefreshDependsOnOutputs | src/tensorrt_engine/tensorrt_engine.cpp:626-673 | the refresh looks at outputs only, so new input data does not disturb it |
| EngineRecapture.InferCaptures | src/tensorrt_engine/tensorrt_engine.cpp:566-577 | an inference captures at most once, and not when the graph's shapes are the current ones |
| EngineRecapture.LoopRuns | src/tensorrt_engine/tensorrt_engine.cpp:494-498 | the invariant of an inference loop over any run |
| EngineRecapture.ReachedMatches | src/tensorrt_engine/tensorrt_engine.cpp:134-275 | in every state any calls reach, failing allocations and unsupported types included, tensors and bindings agree on what is an input |
| EngineRecapture.AtMostTwoCaptures | src/tensorrt_engine/tensorrt_engine.cpp:987-1006 | from any frozen, enabled, uncaptured state that any calls reach, whatever failed on the way, any run of inputs, inferences and reads captures at most twice |
| EngineRecapture.CapturesExactly | src/tensorrt_engine/tensorrt_engine.cpp:566-577 | an inference past its waits captures exactly when it has no graph for the shapes as they are |
| EngineRecapture.SecondCaptureIff | src/tensorrt_engine/tensorrt_engine.cpp:494-498 | inference, read, inference captures twice if and only if the engine has a dynamic binding and the shape inferred for some output is concrete, finds room and differs from its tensor's, with no output before it that stops the refresh; once otherwise |
| EngineShapes.InputTakesShape | src/tensorrt_engine/tensorrt_engine.cpp:456-466 | a successful SetInputData leaves the input with its data's shape and size; moved memory means a new context address and no graph |
| EngineShapes.RefreshedOutputsFollow | src/tensorrt_engine/tensorrt_engine.cpp:626-673 | after a successful refresh every output has the size of its inferred shape, and its dimensions unless it grew |
| EngineShapes.RefreshReshapesIff | src/tensorrt_engine/tensorrt_engine.cpp:626-673 | exactly when a refresh gives an output other dimensions, from the shapes and capacities before it |
| EngineShapes.RefreshGrowsIff | src/tensorrt_engine/tensorrt_engine.cpp:645-664 | exactly when a refresh makes an output larger: not frozen, the inferred shape does not fit, and nothing before stops the refresh |
| EngineShapes.ReadHasContextSize | src/tensorrt_engine/tensorrt_engine.cpp:494-505 | a read after a successful refresh returns exactly the size the context infers |
| EngineBuffers.EverythingAllocated | src/tensorrt_engine/tensorrt_engine.cpp:134-275 | every binding has the tensor allocated for it at its shape, outputs after all input shapes are set |
| EngineBuffers.ConstructedInputs | src/tensorrt_engine/tensorrt_engine.cpp:168-177 | after construction, frozen or not, dynamic inputs are at their max profile and static ones at their shape, with exactly that capacity |
| EngineBuffers.ConstructedOutputsFit | src/tensorrt_engine/tensorrt_engine.cpp:221-248 | after construction every output has room for the shape inferred for it |
| EngineBuffers.ConstructedInputsFit | src/tensorrt_engine/tensorrt_engine.cpp:168-205 | after construction every dynamic input whose shape is accepted is at the shape the context has for it |
| EngineBuffers.RunKeepsFitting | src/tensorrt_engine/tensorrt_engine.cpp:425-515 | while no shape is changed, a binding that fits its shape goes on fitting over any run |
| EngineBuffers.RefreshFits | src/tensorrt_engine/tensorrt_engine.cpp:626-673 | a successful refresh makes every output fit, whatever shapes were set |
| EngineBuffers.LaunchOverrunsIff | src/tensorrt_engine/tensorrt_engine.cpp:540-582 | after any run, a launch goes past the end of an input or output without override if and only if the tensor does not fit the context's shape for it |
| EngineBuffers.UnchangedShapesNeverOverrun | src/tensorrt_engine/tensorrt_engine.cpp:540-582 | while shapes stay as constructed, no inference of any run goes past the end of a dynamic input or of an output inferred with all its axes |
| EngineBuffers.LatestDataStays | src/tensorrt_engine/tensorrt_engine.cpp:425-475 | the data last set stays in the tensor, in its own shape and size, whatever else is called |
| EngineBuffers.LaunchedAsSetIff | src/tensorrt_engine/tensorrt_engine.cpp:586-608 | an inference is launched with an input shape equal to the shape of the data it finds if and only if the last accepted SetBindingShape and the last successful SetInputData were given the same |
| EngineEcho.LargerShapeOverruns | src/tensorrt_engine/tensorrt_engine.cpp:586-608 | from construction, a larger shape and an inference right after it launch into an output, and from an input, with half the room needed |
| EngineEcho.TwoCapturesHappen | src/tensorrt_engine/tensorrt_engine.cpp:494-498 | from construction, a smaller shape on a frozen engine makes inference, read, inference capture twice |
| EngineEcho.OverrideMissesData | src/tensorrt_engine/tensorrt_engine.cpp:678-691 | from construction, with an address of the user's the inference is launched with memory that still holds what it held at first, not the data set |
| EngineEcho.GrowthMissesResult | src/tensorrt_engine/tensorrt_engine.cpp:652-664 | from construction, a read that grows its output copies from new memory, not from where the inference wrote |
| EngineEcho.EarlyFreeHappens | src/tensorrt_engine/tensorrt_engine.cpp:494-509 | from construction, a run of the loop whose read frees the output without waiting for the inference: not free of races |
| EngineDelivery.InputArrivesIff | src/tensorrt_engine/tensorrt_engine.cpp:456-474 | an inference finds the data set at the address it is launched with, if and only if the input has no override elsewhere |
| EngineDelivery.RefreshMoves | src/tensorrt_engine/tensorrt_engine.cpp:652-664 | a refresh leaves an output where it is, or grows it and moves it to what the allocator gave |
| EngineDelivery.ReadAddressIff | src/tensorrt_engine/tensorrt_engine.cpp:494-498 | a read copies from where the output was, or from what the allocator gave, exactly as the output outgrows its memory |
| EngineDelivery.ReadDeliversIff | src/tensorrt_engine/tensorrt_engine.cpp:494-515 | a read returns what the inference left at the address it copies from, which is the launch address if and only if the output has no override elsewhere and does not outgrow its memory: frozen, or the inferred shape fits, or the refresh stops before it |
| EngineSettings.LatestAddressIsLaunched | src/tensorrt_engine/tensorrt_engine.cpp:678-691 | the last address accepted for a binding is the one every later inference launches with, whatever happens in between |
| EngineSettings.LatestShapeIsLaunched | src/tensorrt_engine/tensorrt_engine.cpp:586-608 | the last shape accepted for a binding is the one every later inference launches with |
| EngineSettings.LatestStreamIsUsed | src/tensorrt_engine/tensorrt_engine.cpp:300-310 | the last stream accepted is the one every later inference launches on |
| EngineSettings.LatestShapeAndStreamAreLaunched | src/tensorrt_engine/tensorrt_engine.cpp:586-608 | both together, in one launch |
| EngineSchedules.WaitsSynchronise | src/tensorrt_engine/tensorrt_engine.cpp:552-559 | waiting for all input events makes the stream wait for every memory operation issued |
| EngineSchedules.RecordsSynchronise | src/tensorrt_engine/tensorrt_engine.cpp:873-886 | every output event recorded after the launch stands for everything issued |
| EngineSchedules.InputSynchronises | src/tensorrt_engine/tensorrt_engine.cpp:468-474 | an input on the device and its event leave the internal stream having waited for everything, so the next write is safe |
| EngineSchedules.ReadSynchronises | src/tensorrt_engine/tensorrt_engine.cpp:507-514 | the wait before a read of a device output orders it after the inference, and later inputs after the read |
| EngineSchedules.InferSynchronises | src/tensorrt_engine/tensorrt_engine.cpp:552-581 | an inference on either stream races with nothing and its events cover it |
| EngineSchedules.RunSynchronises | src/tensorrt_engine/tensorrt_engine.cpp:425-582 | the synchronisation invariant over any number of rounds that copy to and from device bindings |
| EngineSchedules.EveryScheduleIsSequential | src/tensorrt_engine/tensorrt_engine.cpp:425-582 | for rounds of inputs, an inference and reads over device bindings, every legal schedule gives host and device memory what sequential execution gives; one half of HostRaces.SequentialIffOnDevice |
| EngineRounds.InferSucceeds | src/tensorrt_engine/tensorrt_engine.cpp:540-582 | with a willing runtime an inference succeeds from every state of a loaded engine |
| EngineRounds.InferIssues | src/tensorrt_engine/tensorrt_engine.cpp:552-581 | a successful inference issues waits, one launch and an event for every output, and nothing else |
| EngineRounds.AddRound | src/tensorrt_engine/tensorrt_engine.cpp:425-582 | on every engine, any loop run between rounds can go on with another round, whose operations are an upload, a launch and a download apart from waits and records |
| EngineRounds.ARoundSucceeds | src/tensorrt_engine/tensorrt_engine.cpp:425-582 | on every engine with an input and an output the loop can be run, host-located bindings or not |
| HostSchedules.HostFirstIsLegal | src/driver/cuda_base_memory.cpp:100-112 | running all host copies before everything on streams violates no guarantee |
| HostSchedules.HostReadRaces | src/driver/cuda_base_memory.cpp:100-112 | a host copy after an inference reads other bytes under that schedule, after any program of copies, waits and inferences in which no stream has copied the same memory to the same destination |
| HostSchedules.HostWriteRaces | src/driver/cuda_base_memory.cpp:70-78 | a host write of other data changes the result already read of an earlier inference under that schedule |
| HostRaces.EveryHostReadRaces | src/tensorrt_engine/tensorrt_engine.cpp:507-514 | after any loop run of any engine, a read of a host-located output may deliver other bytes, unless a stream has already copied the same memory to the same destination |
| HostRaces.EveryHostWriteRaces | src/tensorrt_engine/tensorrt_engine.cpp:468-474 | in any loop run of any engine, an inference, a read of its result from the device and any later write of other data to a host-located input may deliver other bytes |
| HostRaces.OutputRun | src/tensorrt_engine/tensorrt_engine.cpp:507-514 | from construction, one round with a host-located output whose bytes differ |
| HostRaces.InputRun | src/tensorrt_engine/tensorrt_engine.cpp:468-474 | from construction, two rounds with a host-located input and a device output whose bytes differ |
| HostRaces.SequentialIffOnDevice | src/tensorrt_engine/tensorrt_engine.cpp:425-582 | all loop runs over a set of bindings, under all schedules, inferences and memories, give the host the sequential bytes if and only if TensorRT locates none of the set on the host |
| EngineFrees.FreesAreOrderedIff | src/tensorrt_engine/tensorrt_engine.cpp:494-509 | with its frees, the program of any loop run over device bindings is free of races if and only if no read frees right after an inference on another stream than the internal one |
| EngineFrees.EveryScheduleIsSequentialWithFrees | src/driver/cuda_base_memory.cpp:181-210 | and then every order the device may choose, of frees too, is as sequential execution |
| EngineFrees.ReadFreesIff | src/tensorrt_engine/tensorrt_engine.cpp:645-664 | a successful read frees if and only if an output from the pool outgrows its memory; on a frozen engine none does |
| SlotClaim.RunKeeps | src/kernels/voxelization.cu:56-67 | under every interleaving: counters count claimants, slot numbers are distinct and gapless, written words are whole and nothing else changes |
| SlotClaim.EveryScheduleFills | src/kernels/voxelization.cu:56-67 | when all threads are done each counter is its number of threads and the slots below the limit hold whole records of distinct threads |
| SlotClaim.FullBucketsKeepEverything | src/kernels/voxelization.cu:56-67 | with no more threads than slots, the slots are a permutation of the threads' records |
| SlotClaim.EveryRunCanFinish | src/kernels/voxelization.cu:56-67 | from every reachable state some continuation, of threads of the launch only, finishes |
| VoxelGrid.ColumnInGrid | src/kernels/voxelization.cu:287-288 | a point in range falls into one of the ceil-many cells |
| VoxelGrid.ColumnIsCell | src/kernels/voxelization.cu:53-54 | the floored quotient is the cell whose half-open interval contains the coordinate |
| VoxelGrid.CellSplits | src/kernels/voxelization.cu:94-96 | batch, row and column are recovered from the flat voxel number |
| VoxelGrid.LiesInIff | src/kernels/voxelization.cu:35-54 | the kernel's tests and quotients mean that the first three numbers of the point are in range and in the cell |
| Voxels.BucketIsCell | src/kernels/voxelization.cu:41-67 | a thread claims a slot of a voxel if and only if its point is present, and its numbers at offsets 0, 1 and 2 are in range and inside that cell; the record it writes is the point's numbers in their order |
| Voxels.WordsAreDistinct | src/kernels/voxelization.cu:60-67 | different voxel, slot or value is a different buffer index |
| Voxels.EveryScheduleVoxelizes | src/kernels/voxelization.cu:35-67 | under every interleaving the mask, by row-major cell number, counts each cell's points, and its slots hold distinct ones, the numbers of the cloud in their order |
| Voxels.VoxelKernel.StepThread | src/kernels/voxelization.cu:35-67 | one atomic step of a thread on the buffers |
| Voxels.VoxelKernel.Launch | src/kernels/voxelization.cu:131-144 | the whole launch on the buffers, for any interleaving |
| Pillars.GuardIsBound | src/kernels/voxelization.cu:96-99 | the batch test is exactly the test that the thread's voxel exists |
| Pillars.EveryScheduleCompacts | src/kernels/voxelization.cu:93-128 | under every interleaving a batch's pillars number its nonempty voxels, each once, with clamped count, coordinates and points |
| Pillars.PillarNumbersStayBelowTheMaximum | src/kernels/voxelization.cu:105-109 | the missing test against the maximum is never needed when a batch has no more nonempty voxels than that |
| Pillars.PillarKernel.StepThread | src/kernels/voxelization.cu:93-128 | one atomic step of a thread on the buffers |
| Pillars.PillarKernel.Launch | src/kernels/voxelization.cu:146-156 | the whole launch on the buffers, for any interleaving |
| ThreadOrder.AnyOrderSums | src/kernels/voxelization.cu:203-207 | the sums do not depend on the order in which the additions arrive |
| PillarFeatures.SumAxis | src/kernels/voxelization.cu:203-207 | one coordinate added up in arrival order is its sum in index order |
| PillarFeatures.Pillar | src/kernels/voxelization.cu:165-257 | one pillar's phases, for up to the 64 points shared memory has rows for, each coordinate's additions arriving in an order of its own, put every feature row in place and leave other pillars' rows |
| PillarFeatures.SharedRowsApartIff | src/kernels/voxelization.cu:189-200 | the threads of a block keep out of each other's shared rows if and only if a pillar has at most 64 points |
| PillarFeatures.OneThreadPerPoint | src/kernels/voxelization.cu:165-170 | each point slot of each pillar has exactly one thread of the launch |
| PillarFeatures.Launch | src/kernels/voxelization.cu:260-275 | for up to 64 points per pillar, every pillar below the clamped number gets its features, in any order of pillars, and the numbers end up clamped |
| VoxelPipeline.NearTheCentre | src/kernels/voxelization.cu:219-226 | a point of a cell is within half a cell of the centre the kernel computes |
| VoxelPipeline.ColumnCancels | src/kernels/voxelization.cu:209-217 | the mean-centred features are the coordinates less their mean over the pillar and sum to zero |
| VoxelPipeline.PillarsPortrayTheCloud | src/kernels/voxelization.cu:28-257 | pillar i shows min(count, maximum) distinct points of the i-th nonempty voxel: the four numbers of the point as they are in the cloud, its offsets from the centre within half a cell, its deviations from their mean, and zero rows after them, all by index into the buffers |
| VoxelPipeline.GenerateVoxelizationFeature | src/kernels/voxelization.cu:277-300 | the three launches on one set of buffers, for up to 64 points per pillar: a batch's pillars portray its occupied cells, each exactly once |
| VoxelPipeline.OrdersExist | src/kernels/voxelization.cu:277-300 | for every cloud there are orders of steps in which all three launches finish |
| BFloat16.AffineOnBuckets | src/kernels/preprocess_cuda_kernels.cu:31-36 | decoding is affine between neighbouring bfloat16 values, across binade edges too |
| BFloat16.RoundsToNearestEven | src/kernels/preprocess_cuda_kernels.cu:31-36 | every number goes to the nearest bfloat16 value, ties to even, sign kept; sections 3.4 and 4.3.1 of IEEE 754-2019 |
| BFloat16.NearestEvenIsUnique | src/kernels/preprocess_cuda_kernels.cu:31-36 | there is only one such value |
| BFloat16.Monotone | src/kernels/preprocess_cuda_kernels.cu:31-36 | within a sign the conversion is monotone |
| BFloat16.ExactOnBFloat16 | src/kernels/preprocess_cuda_kernels.cu:31-36 | values already representable are kept |
| BFloat16.OverflowsToInfinity | src/kernels/preprocess_cuda_kernels.cu:31-36 | a finite number becomes infinite if and only if it is at least half a step above the largest finite bfloat16 |
| BFloat16.NaNSurvivesIff | src/kernels/preprocess_cuda_kernels.cu:31-36 | exactly which inputs that are not numbers stay so, and what the others become |
| StridedCopy.Visits | src/kernels/preprocess_cuda_kernels.cu:80-82 | a thread's loop visits the elements congruent to its number, in order |
| StridedCopy.OneIterationPerElement | src/kernels/preprocess_cuda_kernels.cu:80-82 | every element is one iteration of exactly one thread |
| StridedCopy.Copy | src/kernels/preprocess_cuda_kernels.cu:80-82 | all iterations in any order copy the row and touch nothing else |
| Gather.Block | src/kernels/preprocess_cuda_kernels.cu:62-83 | one block copies its token's row, or flags it, and touches no other row |
| Gather.Launch | src/kernels/preprocess_cuda_kernels.cu:194-239 | success if and only if the ids the grid reaches are in range; in every case each output row is the table's row of its id, or as before if its id is out of range or not reached |
| Gather.SuccessMeansInRangeIff | src/kernels/preprocess_cuda_kernels.cu:203-239 | for sizes whose grid can be launched, the launcher's success means all ids are in range, for all inputs of the size, exactly when the size fits the grid argument |
| Gather.RefusedIff | src/kernels/preprocess_cuda_kernels.cu:203-239 | the launcher refuses all inputs of a size exactly when the truncated grid is empty or above the device limit |
| Fusion.SerialBlock | src/kernels/preprocess_cuda_kernels.cu:88-114 | masked tokens take the feature of their rank while there are any, overflow exactly when there are too few |
| Fusion.PrefixSum | src/kernels/preprocess_cuda_kernels.cu:128-134 | thread 0's prefix sums are the ranks |
| Fusion.ParallelBlock | src/kernels/preprocess_cuda_kernels.cu:116-158 | the same fusion from the prefix sums, or nothing at all on overflow against the cast count |
| Fusion.Launch | src/kernels/preprocess_cuda_kernels.cu:241-309 | success if and only if no row has more masked tokens than the path's count of features, and every cell of the output then and otherwise: the feature of the row at the number of masked tokens before, or the embedding |
| Fusion.ParallelIffShort | src/kernels/preprocess_cuda_kernels.cu:269-274 | the path test means at most 10240 tokens |
| Fusion.FlagsAgreeIff | src/kernels/preprocess_cuda_kernels.cu:134-138 | the kernels flag the same masks if and only if min(count, length) is at most the count cast to int |
| Fusion.SuccessDoesNotDependOnPath | src/kernels/preprocess_cuda_kernels.cu:269-308 | under that condition the choice of path never changes the result |
| Fusion.PathsDisagree | src/kernels/preprocess_cuda_kernels.cu:134-138 | an input with 2^32 features and one masked token, for which the launcher picks the parallel path: it reports an overflow and the serial kernel would not |
| Fusion.EitherPathFuses | src/kernels/preprocess_cuda_kernels.cu:85-158 | with enough features both paths give a masked token the row's feature whose number is the count of masked tokens before it, and any other token its embedding, by index into the buffers |
| Fusion.RowsFuse | src/kernels/preprocess_cuda_kernels.cu:85-158 | the same for every row of either path, those that overflow included |
| PlanarPack.OneThreadPerCoordinate | src/kernels/preprocess_cuda_kernels.cu:42-43 | each pixel coordinate belongs to exactly one block and thread |
| PlanarPack.EveryCellHasOnePixel | src/kernels/preprocess_cuda_kernels.cu:50-59 | pixels and channels map one to one onto the output cells |
| PlanarPack.Launch | src/kernels/preprocess_cuda_kernels.cu:163-182 | the 16 by 16 launch with its guard, threads in any order, puts the converted byte c of pixel (y, x) into row y and column x of plane c |
| PlanarPack.EveryCellIsSet | src/kernels/preprocess_cuda_kernels.cu:42-59 | so every output cell holds the converted byte its plane, row and column name |
| BevPool.OneThreadPerIntervalAndChannel | src/plugins/bev_pool_v2/trt_bev_pool_kernel.cu:28-31 | the launch contains exactly one thread for each interval and channel |
| BevPool.PoolThread | src/plugins/bev_pool_v2/trt_bev_pool_kernel.cu:28-46 | one thread writes its interval's sum to its one cell |
| BevPool.SetZero | src/plugins/bev_pool_v2/trt_bev_pool_kernel.cu:48-53 | every cell is zero afterwards |
| BevPool.ScatterIsPartialSum | src/plugins/bev_pool_v2/trt_bev_pool_kernel.cu:32-45 | in a point-by-point scatter-add a cell collects exactly its interval's products, in order |
| BevPool.PooledIsScattered | src/plugins/bev_pool_v2/trt_bev_pool_kernel.cu:23-46 | pooling all intervals equals adding all points one by one |
| BevPool.Enqueue | src/plugins/bev_pool_v2/trt_bev_pool.cpp:78-98 | zeroing and pooling, threads in any order, leave the scatter-add: in the cell of each interval and channel the in-order sum of that channel's features times depths, zero elsewhere; other types are refused untouched |
| BevPool.ScatteredCells | src/plugins/bev_pool_v2/trt_bev_pool_kernel.cu:32-46 | what every cell of the scatter-add holds, by index into features, depths and ranks |
| Serialize.DecodeEncode | include/plugins/common/trt_serialize.h:18-72 | a written value is read back whatever follows it, taking exactly its serialized size |
| Serialize.EncodeDecode | include/plugins/common/trt_serialize.h:18-72 | whatever is read is what the bytes consumed encode |
| Serialize.EncodingIs | include/plugins/common/trt_serialize.h:18-72 | which bytes are written: a plain value's own, a text's and a zero, a vector's length in eight bytes, least significant first, and its elements in order |
| Serialize.RoundTrip | include/plugins/common/trt_serialize.h:75-88 | any list of values comes back in order, with exactly the sum of the sizes consumed and the suffix left |
| Serialize.Writer.Write | include/plugins/common/trt_serialize.h:22-61 | writing puts the encoding at the cursor, advances it by the serialized size and changes nothing else |
| Serialize.Reader.ReadValue | include/plugins/common/trt_serialize.h:26-71 | reading decodes at the cursor and advances it, or stops where an assertion fails |
| Serialize.IntRoundTrip | src/plugins/bev_pool_v2/trt_bev_pool.cpp:20-23 | four bytes give back the integer, negative ones too |
| Serialize.BevPoolPlugin.Save | src/plugins/bev_pool_v2/trt_bev_pool.cpp:112-119 | width in the first four bytes and height in the next, least significant first, and the rest of the buffer unchanged |
| Serialize.BevPoolPlugin.Load | src/plugins/bev_pool_v2/trt_bev_pool.cpp:20-23 | succeeds exactly on eight bytes or more and takes width and height from the first and second four |
| Serialize.SaveThenLoad | src/plugins/bev_pool_v2/trt_bev_pool.cpp:20-23 | a plugin loaded from a saved one has its width and height, and what follows them in the buffer is unchanged |

## Left out

- TensorRT itself: inference is any function of shapes, addresses and memory; shape inference, and whether a shape or address is accepted, are functions the model is given.
- Failed loading of an engine file, plugin libraries, auxiliary streams, logging, profiling ranges, device queries and plugin registration.
- `Infer`, `Synchronize` and the two `Execute` overloads, which are compositions of the modelled calls with a host wait.
- The difference between asynchronous and synchronous copies: the model has the asynchronous form; a synchronous read of device memory waits for its stream as well, which only removes schedules.
- EngineSchedules.EveryScheduleIsSequential: asks for successful allocations and for one stream per run; changing the stream, or two inferences without an input and a read between them, leaves operations no event orders. That the bindings copied are on the device is the exact condition, by `HostRaces.SequentialIffOnDevice`.
- EngineSchedules.InputSynchronises: for inputs on the device; for host-located ones it is false, by `HostRaces.InputRun`.
- EngineSchedules.ReadSynchronises: for outputs on the device; for host-located ones it is false, by `HostRaces.OutputRun`.
- EngineSchedules.RunSynchronises: for copies to and from the device, as the two above.
- HostSchedules.HostReadRaces: a stream that has already copied the same memory to the same destination may hide the race in the final bytes.
- HostRaces.EveryHostReadRaces: as above.
- HostRaces.EveryHostWriteRaces: for memory only the host has written to; the result must be read from the device, and not read over afterwards.
- EngineFrees.FreesAreOrderedIff: for loops without a freeze in between; memory that is not from the pool is freed synchronously and not counted.
- EngineBuffers.UnchangedShapesNeverOverrun: for static inputs, whose shape TensorRT infers, nothing is said.
- EngineDelivery.ReadDeliversIff: supposes that the allocator does not hand out memory still in use.
- EngineBuffers.ConstructedOutputsFit: for outputs inferred with all the axes the engine declares; a shorter inferred shape is merged with the declared one.
- Frees outside the inference loop, the stream order of allocations, and reuse of a freed buffer's address by the allocator. The programs other than those of `EngineFrees` do not show frees.
- EngineCalls.FreezeCallPromises: for states whose sizes agree and allocations that succeed; so are `RefreshRebinds`, `ReadRefreshes`, `InputTakenIff` and the conditions of `RefreshSucceedsIff` on an engine that is not frozen.
- A null pointer inside a memory object aborts the process in the original; the model has the call fail there. It never happens while sizes agree.
- `Tensor::View`, `Tensor::ViewFrom`, registered host memory, `Memset`, device-to-device copies, `SetDeviceMemory`, and changing a tensor obtained from the engine behind its back.
- More than eight dimensions and wrap-around of `size_t` products.
- Voxel coordinates are real numbers; rounding of the floating-point arithmetic is not modelled.
- Voxelization threads past the last point, which read outside the size array, and batches with more nonempty voxels than the maximum, which write into the next batch's pillars.
- PillarFeatures.Pillar: ten features per point of four values, and at most 64 points per pillar, above which neighbouring pillars overwrite each other's shared rows; barriers are phases.
- PlanarPack.Launch: the normalisation before the conversion is any function of channel and byte.
- Fusion.Launch: asks for index products and grids that fit the types the launcher uses; CUDA errors are left out here and in the gather and packing launchers.
- Gather.Launch: the product of batch and length is unbounded, and a grid above the device limit is the only CUDA error modelled.
- BevPool.Enqueue: zeroing is complete before pooling starts; the original puts it on the default stream.
- `deserialize` resizes a vector before it checks the remaining bytes, and computes the byte count in `size_t`; on well-formed input neither matters, and on malformed input the model only says that reading stops.
