# Verification of the Airframe inference core

Airframe runs language models on the GPU. Its token generation is not a loop:
it is a *fabric* of rules that turn facts into facts over shared working
memory, taken in whatever order the fact store hands them out. This project
models that fabric and the parts around it in Dafny and proves what they are
for:

* **The fabric** (`Facts`, `FabricRules`, `FabricRun`, `FabricBudget`,
  `SequentialLoop`, `FabricRefinement`, `TokenAccounting`, `FabricKv`,
  `FabricFifo`, `FabricOvertaking`, `FabricObserved`, `FabricRisk`,
  `FabricObject`). A step takes *any* pending fact of a deduplicating store and
  reads *any* value off the clock; every theorem is over all schedules. The
  fabric refines an ordinary generate loop, its work bound always suffices, and
  its tokens are accounted for. KV increments run once each in every order;
  whether they all run before the decode step that follows them depends on the
  order, and the exact condition is proved. The object model mutates the session state in place.
  The callbacks (dequantisation, prefill, forward, sampling, decoding, mask,
  control, trace) are functions of their arguments and of an environment that
  is threaded through them.
* **The request state** (`Lease`, `LeaseThreads`, `StateBudget`,
  `GpuRequest`, `GpuRefinement`, `MathBypass`). The exclusive lease with epochs
  and the prepare/commit protocol for KV writes, over every sequence of operations
  and every interleaving of threads; and its composition with the fabric: an
  admitted request only ever asks for positions the lease grants, also when a
  bypass forces its tokens, and without an error it computes what the machine
  computes on the whole prompt and then token by token.
* **The dense plan compiler** (`ModelDescriptor`, `DescriptorKeys`,
  `ManifestTensors`, `ExecutionPlan`, `PlanMeaning`, `Operators`, `OperatorLaws`,
  `Admission`, `PlanSoundness`). A manifest is validated, compiled to operators,
  and each operator shape-checked. What is accepted is told key by key and tensor
  by tensor. It compiles, for any number of layers, to a plan that computes the
  transformer of the tensors' names, and that the checker passes exactly when its
  sizes and file extents fit.
* **Self-contained algorithms**: row-major indexing and the KV cache
  (`TensorIndex`, `KvCache`), the K-quant bit layouts (`QuantLayout`,
  `QuantBits`, `QuantExact`), the certificate file (`CertText`, `CertFile`,
  `CertLaws`, `CertWaivers`, `CertRuns`, `CertSeals`), sampling (`Sampler`, `Rng`) and the
  profiling aggregate (`Profiling`, `ProfilingLaws`, `ProfilingRuns`).

`dafny verify dfyconfig.toml` checks everything. `usize` is 64 bits wide.

Where the code and its own comments disagree, the model follows the code:

* `crates/airframe_observe/src/facts.rs:187-194` and
  `crates/airframe_observe/src/isf.rs:447-452` say the fabric serialises KV
  increments before the next decode step. In any order, all increments have run
  when a decode step is pending if and only if no advance is pending with it
  (`FabricKv.IncrementsInAnyOrder`). First-in first-out processing makes that so
  (`FabricFifo.IncrementsComeFirst`). Some order violates it for exactly the
  requests whose first token the control lets through and is neither the end nor
  a stop token (`FabricOvertaking.SomeOrderOvertakes`).
* The fabric looks at `max_tokens` only after the first token. So the limit is
  kept if and only if it is at least one or the control stops at once
  (`TokenAccounting.LimitIsKept`); a limit of zero otherwise yields one token.
  `src/runtime/gpu.rs:629-636` returns before it gets there.
* `src/runtime/kvcache.rs:13` says the snapshot mirrors the length.
  `KvCache.SnapshotMirrors` says exactly after which runs of calls it does:
  `truncate` leaves it behind.
* `src/runtime/kvcache.rs:14` says the snapshot's version is monotonic. It falls
  on a `reset` (`KvCache.VersionFallsOnReset`), and on a completion after a
  `truncate` that ends short of it (`KvCache.VersionFallsAfterCut`), and on
  nothing else: `KvCache.VersionFalls` for one call, `KvCache.VersionIsMonotonic`
  for a run.
* A waiver whose reason spells out another file's section header hides that
  file's first waiver (`CertRuns.ReasonHidesSection`);
  `CertWaivers.WaiverReadsBack` says exactly when a waiver is read back.
* Sealing a file whose section header occurs in the certificate other than as a
  line, in a waiver's reason say (`CertSeals.ReasonHidesSeal`), writes no seal
  and reports none missing. `CertSeals.SealReadsBack` says exactly when the file
  is sealed afterwards.
* `src/model_descriptor.rs:317-327` refuses tensors of unsupported names, but
  only among planned ones, none of which has such a name
  (`ModelDescriptor.PlannedIsSupported`): the refusal is always the one before it.
* `Rng` adds one to its seed, so the greatest seed gives the state zero, from
  which xorshift never leaves (`Rng.OnlyOneSeedSticks`).

## Model

| member | source | states |
|---|---|---|
| `FabricRun.AbsorbAgrees` | crates/airframe_observe/src/facts.rs:143-147 | the deduplicating store: a fact asserted twice is queued once, every known fact is either pending or done, and never both |
| `FabricRefinement.FabricRefinesLoop` | crates/airframe_observe/src/isf.rs:310-728 | for every order of taking facts and every clock, a saturated run of a nonempty prompt ends with the token ids, text, streamed pieces, trace, halt and block reasons and environment of the plain sequential loop; an empty prompt never halts |
| `FabricRefinement.SchedulesAgree` | crates/airframe_observe/src/isf.rs:310-728 | any two orders that saturate agree on everything a caller observes |
| `FabricRefinement.StepKeepsInv` | crates/airframe_observe/src/isf.rs:310-806 | every single step, whichever rule fires, keeps the invariant that ties the store, the cache and the one control fact in flight to the sequential loop's continuation |
| `FabricRefinement.DequantisedOnce` | crates/airframe_observe/src/isf.rs:243-271 | in every order and at every moment no prompt id has been dequantised twice, at saturation each has, and the batch is derived only when all are cached and is then the prompt's embeddings in prompt order |
| `FabricRefinement.WindowIsLastGenerated` | crates/airframe_observe/src/isf.rs:515-516 | at every moment of every order, while a decode step is pending, the window the sampler is given is exactly the last 64 generated ids, or all of them if there are fewer, in order |
| `SequentialLoop.EmbedIsRows` | crates/airframe_observe/src/isf.rs:418-440 | the batch is one dequantised row for each prompt id, joined in order |
| `FabricBudget.BudgetIsExact` | crates/airframe_observe/src/isf.rs:53-69 | the checked work bound is Ok exactly when the unbounded-integer bound fits 32 bits, and is then that bound |
| `FabricBudget.StepSpends` | crates/airframe_observe/src/isf.rs:310-796 | whatever fact a step takes, the weighted work still ahead shrinks by at least one |
| `FabricBudget.BudgetSuffices` | crates/airframe_observe/src/isf.rs:53-69 | whenever a bound is granted, no schedule processes more facts than it and a run that reaches it has saturated |
| `FabricBudget.CountersNeverWrap` | crates/airframe_observe/src/isf.rs:559-728 | with a granted bound no schedule ever produces a step or position whose successor leaves 32 bits |
| `TokenAccounting.RunsAccount` | crates/airframe_observe/src/isf.rs:483-728 | every saturated run on a nonempty prompt sets a halt reason, generates at most the limit and exactly the limit on MaxTokensReached; an EOS or stop id is only the last id, and text and pieces are the decoded ids without it |
| `TokenAccounting.GenerateAccounts` | crates/airframe_observe/src/isf.rs:483-728 | the same accounting for the sequential loop itself |
| `TokenAccounting.LimitIsKept` | crates/airframe_observe/src/isf.rs:483-592 | the loop generates at most max_tokens ids if and only if max_tokens is at least one or the control's first decision stops it; at zero it generates none or one accordingly |
| `TokenAccounting.RunsKeepLimit` | crates/airframe_observe/src/isf.rs:483-592 | the same of every saturated run, in any order |
| `FabricKv.StepKeepsKv` | crates/airframe_observe/src/isf.rs:418-728 | every step, whichever fact is taken, keeps it that the advances derived are those below one position, the ones processed are logged once each, and a control fact in flight stands at that position |
| `FabricKv.IncrementsInAnyOrder` | crates/airframe_observe/src/facts.rs:187-194 | wherever any schedule has got to with a decode step at p pending, exactly the positions below p whose advance is not pending have been incremented, each once; so all have if and only if no advance is pending |
| `FabricKv.StepTells` | crates/airframe_observe/src/isf.rs:418-728 | every step, whichever fact is taken, keeps it that the advances derived are those of the prompt and of every streamed token but the last |
| `FabricKv.IncrementsAreComplete` | crates/airframe_observe/src/isf.rs:559-573 | at saturation, in any order, the log holds each position of the prompt and of every token the sequential loop streams but the last exactly once, and no other; for an empty prompt none |
| `FabricFifo.IncrementsComeFirst` | crates/airframe_observe/src/facts.rs:187-194 | first-in first-out, a decode step about to be processed at position p finds that the KV increment has run for exactly 0 to p-1, in order |
| `FabricOvertaking.StreamsIffFirstGoesOn` | crates/airframe_observe/src/isf.rs:483-556 | a request streams any text if and only if the control lets its first token through and that token is neither the end nor a stop token |
| `FabricOvertaking.SomeOrderOvertakes` | crates/airframe_observe/src/isf.rs:447-452 | for every request with a prompt, some order reaches a pending decode step with no increment done if and only if the control lets the first token through and that token is neither the end nor a stop token |
| `FabricObserved.ReportsAreTrue` | crates/airframe_observe/src/isf.rs:442-478 | in every order and at every moment the layer report is that of the sequential loop's own prefill, once it is done, and every logits report is the prefill's or that of the masked logits traced for its position |
| `FabricRisk.RisksAreExact` | crates/airframe_observe/src/isf.rs:730-792 | wherever any schedule has got to, the accumulated time is that of the dispatches since the last risk taken, a risk has been raised for exactly the layers of which a dispatch brought that time to the budget, and yields and their count match the risks taken |
| `FabricRisk.TensorsAreDispatched` | crates/airframe_observe/src/isf.rs:101-127 | in every order and at every moment a dispatch fact has been derived for exactly the tensor facts taken whose type is supported, with that type's slot |
| `FabricRules.SlotsNumberTypes` | crates/airframe_observe/src/quant_formula.rs:371-383 | exactly eight tensor types have a slot, and the slots number them 0 to 7 in order |
| `FabricObject.ISFState.constructor` | crates/airframe_observe/src/isf.rs:193-237 | a new state has generated nothing, cached nothing and stands at position zero |
| `FabricObject.ISFState.EmbeddingRequested` | crates/airframe_observe/src/isf.rs:346-394 | in place, every request taken dequantises its id into the cache and derives its ready fact; that there is one request for an id is the store's doing |
| `FabricObject.ISFState.BatchReady` | crates/airframe_observe/src/isf.rs:418-478 | in place, prefill runs on the batch, stores its logits and derives one KV advance per position |
| `FabricObject.ISFState.Gate` | crates/airframe_observe/src/isf.rs:494-517 | in place, a control decision stops the generation or yields the token to record |
| `FabricObject.ISFState.PrefillCompleted` | crates/airframe_observe/src/isf.rs:483-556 | in place, the first token: mask, sample, control, record, and its end conditions |
| `FabricObject.ISFState.KvAdvanced` | crates/airframe_observe/src/isf.rs:565-573 | in place, one increment and its confirmation |
| `FabricObject.ISFState.DecodeStepped` | crates/airframe_observe/src/isf.rs:583-728 | in place, a decode step: limit, forward pass, empty logits, mask, sample, control, record |
| `FabricObject.ISFState.Dispatched` | crates/airframe_observe/src/isf.rs:730-770 | in place, the time of a dispatch and the risk fact past the budget |
| `FabricObject.ISFState.RiskHigh` | crates/airframe_observe/src/isf.rs:772-792 | in place, the risk of a layer is recorded |
| `FabricObject.InferenceSaturationFabric.RunToFixpoint` | crates/airframe_observe/src/isf.rs:824-838 | facts are processed in some order until none is left or the budget is spent, and the state is the one that schedule leads to |
| `FabricObject.InferenceSaturationFabric.TryGenerate` | crates/airframe_observe/src/isf.rs:824-855 | the call returns what the sequential loop returns; it fails only when the work bound leaves 32 bits or the prompt is empty, and never for want of budget |
| `MathBypass.MathBypassControl.Decide` | src/math_bypass_control.rs:69-82 | in place, an armed control forces the head of its queue and exits when it is empty |
| `MathBypass.GpuForces` | src/runtime/gpu.rs:686-708 | translated for the fabric, the bypass still forces the head of its queue and exits on an empty one until an error is recorded, and nothing else in the request touches it |
| `MathBypass.RunsAreForced` | src/math_bypass_control.rs:69-82 | with an armed bypass whose ids are in the vocabulary every saturated run, in any order and on any machine, records an error or generates exactly the first min of queue length and limit ids, halting by control if the queue ran dry and by the limit otherwise |
| `MathBypass.ForcedRunsFinish` | src/runtime/gpu.rs:624-640 | on a machine that does not fail, an admitted request with an armed bypass generates its forced ids without an error, is refused no position and leaves the lease ready to finish |
| `Lease.StateController.Begin` | src/runtime/state.rs:142-169 | grants a lease under the next epoch, refuses a busy controller, and leaves nothing active when epochs are exhausted |
| `Lease.StateLease.CheckIdentity` | src/runtime/state.rs:199-207 | passes exactly for the controller's model, an open lease and its current epoch |
| `Lease.StateLease.Start` | src/runtime/state.rs:208-217 | in place, a fresh lease learns a prompt length within capacity, or nothing changes |
| `Lease.StateLease.PrepareChunk` | src/runtime/state.rs:218-223 | in place, a prefill chunk is reserved within the prompt |
| `Lease.StateLease.PrepareOne` | src/runtime/state.rs:224-236 | in place, a ready lease reserves one decode position, and falls back to ready if it cannot |
| `Lease.StateLease.CommitWrite` | src/runtime/state.rs:259-269 | in place, only the pending write of this epoch extends the prefix |
| `Lease.StateLease.RequireRead` | src/runtime/state.rs:270-275 | passes exactly on ranges inside the committed prefix of an open lease |
| `Lease.StateLease.FinishRequest` | src/runtime/state.rs:276-284 | in place, only a ready lease finishes, and finishing frees the controller |
| `Lease.StateLease.Abort` | src/runtime/state.rs:285-310 | in place, aborting or dropping an open lease frees the controller, a closed one not |
| `Lease.HistoryTiles` | src/runtime/state.rs:208-297 | over every sequence of operations the committed writes follow one another from zero to the processed count, all under the lease's epoch, and phase, prompt and pending write agree |
| `Lease.TilesCoverOnce` | src/runtime/state.rs:237-269 | each position below the end lies in exactly one committed write and no other position in any |
| `Lease.ReadsExactlyCommitted` | src/runtime/state.rs:270-275 | over every history a nonempty range may be read if and only if the lease is open and every position of it is committed |
| `Lease.OperationsAreExact` | src/runtime/state.rs:208-302 | after any history of operations, exactly when starting, reserving, committing and finishing are granted, told by the prompt, what is committed and what is pending; a refused one and a rollback change nothing, and an abort closes |
| `LeaseThreads.Exclusive` | src/runtime/state.rs:142-169 | under every interleaving of begin, use and close by any threads at most one party is granting, open or closing, the active flag says so, open leases carry the controller's epoch, and epochs are granted 1, 2, 3 and so on |
| `LeaseThreads.ExhaustionReleases` | src/runtime/state.rs:142-169 | a thread that finds the epochs exhausted leaves the controller free |
| `LeaseThreads.FreeControllerGrants` | src/runtime/state.rs:142-169 | under every interleaving a controller nobody holds grants a fresh lease under the next epoch to any thread that asks, and one that is held grants nothing |
| `LeaseThreads.ClosingFrees` | src/runtime/state.rs:276-310 | under every interleaving an open lease that closes frees the controller when it stores its flag |
| `LeaseThreads.NoWriteCommitsTwice` | src/runtime/state.rs:259-269 | no write commits twice, within a lease or under two leases of one controller |
| `StateBudget.BudgetIsExact` | src/runtime/state.rs:58-107 | the checked budget is Ok exactly when kind and geometry are supported and the true sizes, INT4 shadow included, are within the limits, and then returns them |
| `GpuRequest.AdmittedRunsFinish` | src/runtime/gpu.rs:624-640 | an admitted request, in every order of the fabric, never has a position refused, and a run without an error leaves the lease ready with all its positions committed, so that finishing succeeds |
| `GpuRequest.AdmitsExactly` | src/runtime/gpu.rs:624-626 | admitted is exactly a nonempty prompt of vocabulary ids that fits together with all its tokens but the last, and every lease then begins for it |
| `GpuRequest.BeginsIffFits` | src/runtime/state.rs:208-217 | a new lease begins for a prompt exactly when it is not empty and fits the capacity, the capacity itself included |
| `GpuRequest.LookupsStayInVocabulary` | src/runtime/gpu.rs:624 | in every run of an admitted request embeddings are looked up for vocabulary ids only |
| `GpuRequest.FirstErrorStays` | src/runtime/gpu.rs:640-708 | once an error is recorded no hook replaces it, and control asks the caller nothing and blocks |
| `GpuRequest.ErrorsAreExact` | src/runtime/gpu.rs:640-708 | mask and control record an error exactly for an invalid mask, a forced id outside the vocabulary and a blocked policy |
| `GpuRequest.FrameExtends` | src/backend/bindless/pipeline/inference.rs:725-790 | a forward pass that starts at the committed prefix within the capacity is not refused: it changes nothing if it does not fit the machine, closes the lease if it fails, and extends the prefix by its rows if it computes |
| `GpuRequest.FrameRefuses` | src/backend/bindless/pipeline/inference.rs:725-790 | a forward pass anywhere but at the committed prefix is refused and computes nothing |
| `GpuRequest.ChunksExtend` | src/backend/bindless/pipeline/inference.rs:596-695 | a prefill cut into chunks of any size commits the whole prompt if no chunk fails |
| `GpuRefinement.ChunksCompute` | src/backend/bindless/pipeline/inference.rs:655-694 | a chunked run with a result has run the machine on every chunk in order, each from the state the one before left, and returns what the last chunk gave at its position |
| `GpuRefinement.ChunkSizesAgree` | src/backend/bindless/pipeline/inference.rs:655-694 | on a machine that composes over consecutive rows, any two chunk sizes give the same result and leave the same state, those of one pass |
| `GpuRefinement.RequestsArePlain` | src/runtime/gpu.rs:640-780 | on such a machine a request that ends without an error shows, in every order of the fabric and for every chunk size, what the plain loop shows that runs the machine on the whole prompt and then on one token at a time, final machine state included |
| `GpuRequest.UnadmittedExtentIsRefused` | src/runtime/gpu.rs:626 | the context check is tight: a request it turns away would, on a machine that never fails, be refused by the lease during its run |
| `ModelDescriptor.GeometryOf` | src/model_descriptor.rs:77-233 | metadata that pass give positive dimensions that divide as the attention needs; from which keys is `DescriptorKeys.GeometryIsGiven` |
| `DescriptorKeys.GeometryIsGiven` | src/model_descriptor.rs:79-212 | the checks give a geometry if and only if every field is the value under its own key, or its default where the key may be missing, and nothing belongs to another executor |
| `DescriptorKeys.RefusalHasReason` | src/model_descriptor.rs:79-212 | metadata are refused exactly if they give no geometry, and with a code that is true of them: the key, the value or the pair of values it complains of is there |
| `ManifestTensors.NoVocabularyHasReason` | src/model_descriptor.rs:213-233 | exactly when there is no vocabulary, by code |
| `ManifestTensors.UnmetHasReason` | src/model_descriptor.rs:234-249 | exactly when a tensor is not bound, by code |
| `ModelDescriptor.BindAll` | src/model_descriptor.rs:234-249 | tensors are bound in order, or the first unmet need names the error |
| `ModelDescriptor.BindLayers` | src/model_descriptor.rs:264-287 | the same over any number of layers |
| `ModelDescriptor.CheckRest` | src/model_descriptor.rs:288-329 | refuses scaled positions and transformed scores anywhere in the metadata, then the first tensor in file order that is unplanned or has an unsupported name, with the code of that check, and nothing else |
| `ModelDescriptor.PlannedIsSupported` | src/model_descriptor.rs:309-328 | no name that any graph plans for is an unsupported one, so the second check on tensors never fires |
| `ModelDescriptor.FromManifest` | src/model_descriptor.rs:77-347 | accepts exactly the manifests with nothing to refuse, refuses with the code of the first failing check, where two checks of one pass over the metadata map count as one, and an accepted descriptor binds exactly what its graph needs |
| `ManifestTensors.DescriptorIsGiven` | src/model_descriptor.rs:77-347 | an accepted descriptor has every number from its own key or default, the vocabulary of the first embedding, and an output head and frequency factors exactly when the file has them |
| `ManifestTensors.AcceptedExactly` | src/model_descriptor.rs:77-347 | a manifest is accepted if and only if some geometry and vocabulary are what its keys and embedding give, every tensor of each layer is there under its name in shape and type, and no other tensor is |
| `ExecutionPlan.CompileLayer` | src/execution/plan.rs:96-190 | the appended operators of one layer, in order, with the query and key norms exactly when the architecture has them |
| `ExecutionPlan.Compile` | src/execution/plan.rs:92-203 | one operator list for each layer and the final ones |
| `PlanMeaning.LayerIsBlock` | src/execution/plan.rs:98-171 | run operator by operator on any kernels, the operators of a layer compute the transformer block of that layer's tensors by role, cache included |
| `PlanMeaning.PlanIsTransformer` | src/execution/plan.rs:93-193 | a compiled plan finds every operand it needs and computes the transformer that the tensor names make up, for any number of layers and both architectures |
| `PlanMeaning.NumeralReads` | src/execution/plan.rs:99 | the numeral in a layer's tensor names reads as the layer's number |
| `Admission.CheckedOperators` | src/execution/admission.rs:267-395 | all nodes in order, or the error of the first operator that does not check |
| `OperatorLaws.AdmitsOperators` | src/execution/operators.rs:213-420 | every operator contract is admitted exactly for the inputs, parameters and output it states, and for the variants the kernels are certified for |
| `OperatorLaws.PlanNodesAre` | src/execution/admission.rs:267-395 | the nodes of a checked plan are, for any number of layers, the layer's contracts over and over and then the final ones, with heads, rotation, scale and cache of the model |
| `Admission.NormPasses` | src/execution/operators.rs:213-374 | a norm over a bound weight checks exactly when its row is addressable and its weight lies in the file |
| `Admission.LinearPasses` | src/execution/operators.rs:213-374 | a projection of a bound weight checks exactly when both rows are addressable and its weight lies in the file |
| `Admission.AttentionPasses` | src/execution/admission.rs:267-395 | rotation, cache write and attention with grouped heads check exactly when their rows are addressable and the factors lie in the file |
| `PlanSoundness.PlanIsTyped` | src/execution/plan.rs:92-203 | every operator of every layer reads tensors of the shapes and types it needs |
| `PlanSoundness.AcceptedPlansPass` | src/execution/admission.rs:267-395 | compiler soundness for any layer count: the plan of an accepted manifest passes the checker if and only if the vocabulary is not empty, the activations fit the machine and the named weights lie in the file |
| `PlanSoundness.LastNodeIsVocabulary` | src/execution/admission.rs:267-395 | the last checked node yields one score per token of the vocabulary |
| `PlanSoundness.PlanNamesAllTensors` | src/execution/plan.rs:92-203 | the weights a plan names and the embedding are exactly the manifest's tensors |
| `PlanSoundness.Inspect` | src/execution/admission.rs:89-133 | end to end, an accepted manifest is found unsupported only for its sizes or extents |
| `TensorIndex.NdToFlatIndex` | src/core/tensor.rs:79-95 | the loop over strides computes the row-major position and refuses an index out of its dimension |
| `TensorIndex.GetNd` | src/core/tensor.rs:63-76 | the element at an index vector, or which check failed |
| `TensorIndex.FlatInRange` | src/core/tensor.rs:79-95 | in-range index vectors, for any shape, reach only positions of the tensor |
| `TensorIndex.FlatInjective` | src/core/tensor.rs:79-95 | no two of them reach the same position |
| `TensorIndex.FlatOnto` | src/core/tensor.rs:79-95 | and every position is reached |
| `KvCache.KvCache.constructor` | src/runtime/kvcache.rs:53-75 | separate arrays for the keys and values of each layer, none committed |
| `KvCache.CopyRow` | src/runtime/kvcache.rs:285-301 | the inner loop lays one more row over the array and touches nothing else |
| `KvCache.ValidatesExactly` | src/runtime/kvcache.rs:240-276 | states are taken exactly for a layer of the cache, keys and values alike, as rows of its heads, and refused by the first check that fails |
| `KvCache.KvCache.CopyToCache` | src/runtime/kvcache.rs:277-304 | in place, the rows are laid over both arrays of the layer from the given position |
| `KvCache.KvCache.PrefillLayer` | src/runtime/kvcache.rs:111-134 | in place, the whole new contents of an accepted prefill; a refused one changes nothing |
| `KvCache.KvCache.CompletePrefill` | src/runtime/kvcache.rs:137-151 | in place, length and snapshot move on together, within capacity |
| `KvCache.KvCache.AppendLayer` | src/runtime/kvcache.rs:155-177 | in place, one token's states; a refused one changes nothing |
| `KvCache.KvCache.CompleteDecode` | src/runtime/kvcache.rs:180-193 | in place, length and snapshot move on by one unless full |
| `KvCache.KvCache.GetLayerCache` | src/runtime/kvcache.rs:197-221 | the committed positions of both arrays of the layer |
| `KvCache.KvCache.Truncate` | src/runtime/kvcache.rs:224-234 | in place, only the length is set back, not the snapshot |
| `KvCache.KvCache.Reset` | src/runtime/kvcache.rs:78-82 | in place, length and snapshot are zero and the data stay |
| `KvCache.ReadsAreTensors` | src/core/tensor.rs:17-27 | what a layer reads has the element counts its shapes ask for, so the tensor constructor accepts both |
| `KvCache.ChunksLand` | src/runtime/kvcache.rs:111-193 | any cut of positions into prefill chunks and decode steps, over any number of layers written in any order, succeeds exactly when all fit and leaves each layer what it held followed by the rows in order |
| `KvCache.SplitsAgree` | src/runtime/kvcache.rs:197-221 | two ways of cutting the same positions read back alike, so each reads as one prefill |
| `KvCache.CommittedStays` | src/runtime/kvcache.rs:111-234 | no run of calls that stays above a number of positions changes any of them in any layer, whether calls are accepted or refused |
| `KvCache.OffsetIsFlat` | src/runtime/kvcache.rs:285-300 | every written offset is the row-major position of its position, head and element |
| `KvCache.WriteLands` | src/runtime/kvcache.rs:277-304 | element [s, h, e] of the new states lands at [len + s, h, e], and every other element stays |
| `KvCache.SnapshotMirrors` | src/runtime/kvcache.rs:11-14 | over every run of calls on a cache that mirrors, as a new one does, the snapshot mirrors the length at the end if and only if no truncation to fewer positions was the last to move the length |
| `KvCache.VersionFalls` | src/runtime/kvcache.rs:137-193 | one call lowers the version if and only if it is a reset of a positive version or an accepted completion that ends short of it |
| `KvCache.VersionIsMonotonic` | src/runtime/kvcache.rs:14 | over every run of calls the version never falls if and only if no call of the run meets that condition |
| `KvCache.VersionRises` | src/runtime/kvcache.rs:14 | runs without truncation and reset on a mirroring cache are monotonic |
| `KvCache.VersionFallsAfterCut` | src/runtime/kvcache.rs:224-234 | completing n positions, truncating to m and completing one takes the version from n to m+1, for all m+1 below n |
| `KvCache.VersionFallsOnReset` | src/runtime/kvcache.rs:78-82 | completing n positions and resetting takes the version from n to zero |
| `QuantExact.Q4KFinds` | crates/airframe_observe/src/quant_formula.rs:180-203 | the Q4_K decoder, all reads inside the block, takes element e's code from its nibble and its scale pair from sub-block e/32 |
| `QuantExact.Q5KFinds` | crates/airframe_observe/src/quant_formula.rs:212-239 | the Q5_K decoder takes four bits from the nibble and the fifth from bit e/32 of the high byte |
| `QuantExact.Q6KFinds` | crates/airframe_observe/src/quant_formula.rs:248-281 | the Q6_K decoder takes four bits from the low half, two from the high half and the scale of sub-block e/16 |
| `QuantExact.PackUnpack` | crates/airframe_observe/src/quant_formula.rs:180-281 | every stored bit of a superblock can be read back from the codes, scales, minima and raw factors the decoder sees |
| `QuantExact.UnpackPack` | crates/airframe_observe/src/quant_formula.rs:75-85 | whatever fields of the layout's widths are packed, the decoder sees exactly those: no bit serves two fields |
| `QuantExact.UnpackStorable` | crates/airframe_observe/src/quant_formula.rs:75-85 | the fields of any block have the layout's widths |
| `QuantExact.ElementsDetermineBytes` | crates/airframe_observe/src/quant_formula.rs:180-281 | for any number of superblocks, byte strings whose elements all decode to the same terms are equal |
| `CertText.EitherLineEnd` | src/bin/cert_check.rs:866 | a line feed and a carriage return with one end a line alike, and neither is part of it |
| `CertFile.ReadWaivers` | src/bin/cert_check.rs:862-885 | the loop reads exactly the entries of the file's section |
| `CertFile.WriteWaiver` | src/bin/cert_check.rs:888-942 | the text after a waiver, in an existing section or a new one |
| `CertFile.InsertWaiver` | src/bin/cert_check.rs:898-931 | the loop over lines with its flags rewrites one line, or adds one before the next section or at the end |
| `CertFile.WriteSeal` | src/bin/cert_check.rs:945-994 | the text after a seal, replacing the old one or appended; what it then seals is `CertSeals.SealReadsBack` |
| `CertFile.ReplaceSeal` | src/bin/cert_check.rs:958-984 | the loop over lines with its flags puts the seal for the first section and drops the others |
| `CertLaws.SealKeepsWaivers` | src/bin/cert_check.rs:945-994 | in any text that seals the file at most once, sealing changes no waiver of any file |
| `CertWaivers.ReasonSurvives` | src/bin/cert_check.rs:877-881 | a quoted reason reads back as it was if and only if it has no quotation mark at either end |
| `CertWaivers.MatchIsKey` | src/bin/cert_check.rs:910-916 | the prefix test finds the entry of the id and of no other id |
| `CertWaivers.WaiverReadsBack` | src/bin/cert_check.rs:888-942 | in any text with a tidy section, a waiver is read back with all others of its file if and only if the section header, when it occurs in the text, is a line of it |
| `CertWaivers.OthersStay` | src/bin/cert_check.rs:888-942 | in any text, what exactly the waivers of another file are after the write |
| `CertRuns.FileTellsWaivers` | src/bin/cert_check.rs:862-994 | after any run of well-formed waiver and seal writes from an empty file, every file reads exactly the waivers granted to it, with the last reason for each |
| `CertSeals.SealReadsBack` | src/bin/cert_check.rs:945-994 | in any text, sealing a file leaves it one section with exactly this sha and date if and only if the section header, when it occurs in the text, is a line of it; otherwise only line ends change and the file is not sealed |
| `CertSeals.SealKeepsSeals` | src/bin/cert_check.rs:945-994 | sealing one file, in a text that seals it at most once, leaves the sections of every other file as they were |
| `CertSeals.WaiverKeepsSeals` | src/bin/cert_check.rs:888-942 | in any text, what exactly a waiver does to the section of a sealed file |
| `CertSeals.FileTellsSeals` | src/bin/cert_check.rs:888-994 | after any run of well-formed waiver and seal writes from an empty file, each file that was sealed has one section, with the sha and date of its last seal, and no other file has one |
| `CertSeals.ReasonHidesSeal` | src/bin/cert_check.rs:958 | for all files and ids, after a reason that spells out a file's header, sealing that file changes nothing and leaves it unsealed |
| `CertRuns.ReasonHidesSection` | src/bin/cert_check.rs:898 | for all files and ids, a reason that spells out another file's header makes that file's first waiver unreadable and files it under the wrong one |
| `Sampler.ApplyPenalty` | src/runtime/gpu.rs:1302-1314 | in place, each recent token is penalised once per occurrence |
| `Sampler.PenaltyNeverRaises` | src/runtime/gpu.rs:1302-1314 | a penalty of at least one raises no logit, leaves tokens that are not recent alone, and masks or unmasks none |
| `Sampler.PenaltyCounts` | src/runtime/gpu.rs:1302-1314 | in closed form, a positive logit is divided by the penalty to the power of how often its token is recent, any other multiplied by it |
| `Sampler.Greedy` | src/runtime/gpu.rs:1316-1325 | the last of the largest finite logits, or zero if none is finite |
| `Sampler.Largest` | src/runtime/gpu.rs:1338 | the largest finite logit, or minus infinity |
| `Sampler.Draw` | src/runtime/gpu.rs:1354-1375 | the loops over the sorted shares compute the cut and the draw; which token a uniform draw selects is `Sampler.DrawIsFromNucleus` |
| `Sampler.SampleToken` | src/runtime/gpu.rs:1294-1376 | in place, the greedy token, or of the softmax at the temperature, in descending order and cut to the shortest prefix that reaches top_p, the one whose stretch of the mass the uniform draw falls into; it is in range and was not masked, and zero if no logit is finite |
| `Sampler.CutoffIsShortest` | src/runtime/gpu.rs:1354-1362 | the cut is the shortest prefix whose mass reaches top_p |
| `Sampler.SharesAreSorted` | src/runtime/gpu.rs:1337-1352 | the sorted shares add up to one and descend as the logits do, masked tokens having none |
| `Sampler.DrawIsFromNucleus` | src/runtime/gpu.rs:1345-1376 | a sampled token is in range and unmasked, lies in the shortest descending prefix that reaches top_p, no token left out is more probable, and the uniform draw times the nucleus' mass falls into its stretch of that mass |
| `Sampler.SharesAreSoftmax` | src/runtime/gpu.rs:1327-1352 | the sorted shares hold one entry for each token, add up to one, are zero for masked tokens, and stand in the proportions of the exponentials of the logits over the temperature |
| `Sampler.DrawsFormInterval` | src/runtime/gpu.rs:1366-1375 | the uniform draws that select an entry form an interval as long as its share of the nucleus |
| `Sampler.OneIsSelected` | src/runtime/gpu.rs:1366-1375 | no uniform draw selects two entries |
| `Rng.Rng.NextF32` | src/runtime/gpu.rs:58-64 | in place, the next word and a fraction in the half-open unit interval |
| `Rng.EndsTravel` | src/runtime/gpu.rs:58-62 | where the two end bits of a word go, and what small words are scrambled to |
| `Rng.TopBitsAreDrawn` | src/runtime/gpu.rs:63 | the fraction is the top 24 bits over 2^24: each one is drawn, whatever the other bits |
| `Rng.OnlyOneSeedSticks` | src/runtime/gpu.rs:55-64 | over any number of draws the word is zero if and only if the seed was the greatest one, and then every draw is zero |
| `Profiling.ProfileData.AddTo` | crates/airframe_observe/src/profiling.rs:239-247 | in place, the sum or the greatest word with the flag raised |
| `Profiling.ProfileData.RecordForward` | crates/airframe_observe/src/profiling.rs:292-373 | in place, the data after a frame's head and then each of its samples |
| `Profiling.ProfileData.RecordSample` | crates/airframe_observe/src/profiling.rs:346-371 | in place, a sample goes to its stage, or is dropped when 4096 stages are kept and its own is none of them |
| `ProfilingLaws.HeadAdds` | crates/airframe_observe/src/profiling.rs:296-345 | a frame adds its share to every counter, and the flag rises exactly when some exact sum leaves its word |
| `ProfilingLaws.SampleAdds` | crates/airframe_observe/src/profiling.rs:352-370 | the same for the measures of a stage |
| `ProfilingRuns.NumbersStand` | crates/airframe_observe/src/profiling.rs:292-373 | over any sequence every number is the exact sum cut off at the greatest word, the stages are at most 4096, and the flag is up if and only if a frame came flagged or some exact sum was cut off |
| `ProfilingRuns.FlagStays` | crates/airframe_observe/src/profiling.rs:296-372 | from any data, a raised flag stays raised |
| `ProfilingRuns.NothingGoesMissing` | crates/airframe_observe/src/profiling.rs:292-373 | while the flag is down every counter is exact, stage calls plus drops are all samples plus reported drops, and each stage's calls are its measured and its missing calls |
| `ProfilingRuns.ExtentsAreTight` | crates/airframe_observe/src/profiling.rs:297-306 | the reported extents bound every frame, and each bound is some frame's own |

## Left out

- The internals of the `dzero` fact store, which the repository does not hold: the model is a deduplicating store that may hand out pending facts in any order.
- wgpu devices, queues, buffers, shaders and pipelines, weight streaming and chunk planning: a chunk of rows is an uninterpreted function that may fail.
- The tokenizer, GGUF parsing, the grammar engine and the scanner/store: a manifest is a map of metadata and a list of tensors.
- f32 rounding, RMS and checksum statistics, and fp16 decoding: numbers are reals or uninterpreted, and the raw half-float fields stay raw. In floating point a share can underflow to zero, which the reals do not show.
- Clocks, logging, environment variables, file and network access: elapsed times and texts are inputs.
- Hooks that are absent: they stand for the identity mask, an allowing control and no trace.
- Memory ordering: the atomic operations of the state controller are sequentially consistent.
- `PreparedDenseModel::load`, `check_spec`, `check_device`, `context_limit` and the kernel-configuration checks: comparisons of records and limits; only the extent check before a forward pass is modelled, as part of a frame.
- The other block formats (Q4_0, Q5_0, Q8_0) and the registry tables, which are shorter cases of the same bit extraction; the decoder helper of `src/bin/quant_verify.rs`, which differs on subnormals.
- `scan` and `string_literal_spans` of the certificate tool, and the rest of its command line.
- The text search of `math_bypass_control.rs` that computes the forced answer: the queue is an input.
- The summary a profiling session writes, and its adapter fields.
- The attention scale, one over the root of the head width in f32: a positive number given to the compiler.
- GpuRefinement.RequestsArePlain: assumes a machine on which rows and the rows after them compute what all of them compute at once; `GpuRefinement.ChunksCompute` assumes nothing of it.
- KvCache.KvCache.CompletePrefill: the sum of length and rows is unbounded, so the wrap of a 64-bit `usize` for absurd row counts is not modelled.
- Sampler.SampleToken: the index is returned as a natural number, so the cast to 32 bits is not modelled, which matters only for vocabularies beyond 2^32; the unstable sort is any function that sorts.
- MathBypass.RunsAreForced: assumes forced ids that are 32-bit, in the vocabulary and do not end the generation; an id beyond the vocabulary is an error of the request, as `GpuRequest` models it.
- CertSeals.SealKeepsSeals: assumes a text that seals the file at most once, which every run of writes keeps; a second section of it could part two sections of another file.
- CertSeals.FileTellsSeals: assumes what `CertRuns.FileTellsWaivers` assumes; without it, `CertSeals.SealReadsBack` and `CertSeals.WaiverKeepsSeals` say what happens.
- CertRuns.FileTellsWaivers: assumes paths without quotation marks and line feeds, and entries and seals whose lines do not contain the start of a section header; without that, `CertWaivers.WaiverReadsBack` and `CertWaivers.OthersStay` say what happens.
