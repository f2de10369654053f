# Pipelined decoding, KV-cache slots and configuration of onnxruntime-genai, in Dafny

This project models three pieces of bookkeeping that sit around the ONNX Runtime tensor engine in
onnxruntime-genai, and proves what each of them promises.

- **Configuration** (`Config.dfy`, after `src/config.cpp`). The `genai_config.json` reader is a set
  of `*_Element` handlers. The JSON tokenizer feeds them events (`OnString`, `OnNumber`, `OnBool`,
  `OnObject`, `OnArray`, `OnComplete`).
  - Every configuration record is a datatype, and every handler a function from the record and the
    event to the updated record or the error it throws.
  - "Writes exactly the field its key names" is stated through a by-key reader (`SessionGet`,
    `SearchGet`, ...) and a "same except" predicate.
  - Also modelled: `TranslateTensorType`, the EOS-id array, the provider-options objects,
    `IsCudaGraphEnabled`, the post-parse defaults of `Config::Config`, and the nominal-to-graph name
    table.
- **KV-cache slots** (`KvCache.dfy`, after `src/models/kv_cache.cpp`). Covers `KV_Cache`,
  `KV_Cache_Combined`, `Cross_Cache`, `PagedCacheOrchestrator` and `CreateCacheManager`.
  - Each is a class over the model state's four parallel lists (`Tensors.Io`: input names, inputs,
    output names, outputs).
  - `Add` reserves a window of slots at the end of those lists. `Update` moves presents into pasts
    and rebinds only that window (`Tensors.Splice`).
  - The beam reorder `PickPastState` is a copy loop over flat `array<bv32>` buffers, proved to
    gather block `beam_indices[j]` of the present into block `j` of the past.
- **Pipeline step** (`Pipeline.dfy`, after `src/models/decoder_only_pipeline.cpp`).
  `DecoderOnlyPipelineState::Run` is modelled as imperative code. Every stage is bound to:
  - the managed inputs it declares, after the device check;
  - the tensors that earlier stages of the same step left in the pool;
  - the managed outputs it declares, and null slots for its other outputs.

  Each stage runs an abstract session and then publishes its unmanaged outputs to the pool.
  `RunStages` and `Run` are proved against `StagesRan`, a specification of what every stage was
  bound to and which pool it saw. `Run`'s own contract also states first-run gating: every run
  but the first updates the managed tensors once, before any stage. Separate lemmas prove pool
  scoping and last-writer-wins.

Tensors are objects: object identity stands for the `OrtValue*` held in the lists, and `null` for
`nullptr`. Shared result types live in `Wrappers.dfy`.

## Model

| member | source | states |
|---|---|---|
| Config.TranslateTensorType | src/config.cpp:10-19 | succeeds exactly on "float32" and "float16"; otherwise fails with the offending string |
| Config.TranslateTensorTypeRoundTrip | src/config.cpp:10-19 | translating the configuration spelling of a type gives back that type |
| Config.ProviderOptionsOnString | src/config.cpp:24-26 | every option member is appended to the provider's options in order; the name is kept |
| Config.FindOptionAfterOnString | src/config.cpp:24-26 | appending an option never changes what the first option of a given name says |
| Config.FindOption | src/config.cpp:690-693 | the value of the first option with the key; None exactly when no option has it |
| Config.ProviderObjectOnObject | src/config.cpp:35-42 | throws exactly when the object element already holds a member; otherwise appends a provider named by the member with no options |
| Config.FeedOptions | src/config.cpp:24-26 | the option events of one provider object are appended to that provider in order |
| Config.ProviderMembersRejectSecond | src/config.cpp:35-42 | one object is rejected exactly when it has two or more members or its element is already used, always with the one-member error |
| Config.ProviderMembersMarkUsed | src/config.cpp:35-42 | after a successful non-empty object the element counts as used |
| Config.ProviderArrayAsWrittenRejectsSecondProvider | src/config.cpp:49-57 | as written, any provider_options array with two or more non-empty objects is rejected with the one-member error |
| Config.SharedElementRejects | src/config.cpp:52 | once the shared object element is used, the next non-empty entry throws |
| Config.ProviderArrayAppendsInOrder | src/config.cpp:35-42 | with a fresh element per entry, one-member objects are all accepted and appended in array order with their options |
| Config.ProviderArrayRejectsTwoMembers | src/config.cpp:36-37 | with a fresh element per entry, an object with two members still throws |
| Config.SessionTextKeyNamed | src/config.cpp:62-74 | the key found for a string member is the key with that member name |
| Config.SessionNumberKeyNamed | src/config.cpp:76-86 | the key found for a number member is the key with that member name |
| Config.SessionFlagKeyNamed | src/config.cpp:88-106 | the key found for a boolean member is the key with that member name |
| Config.SessionOptionsOnString | src/config.cpp:62-74 | succeeds exactly on the four string keys and then sets only that key's field to the value; any other name throws unknown_value_error |
| Config.SessionOptionsOnNumber | src/config.cpp:76-86 | succeeds exactly on the three thread/severity keys and then sets only that field; other names throw |
| Config.SessionOptionsOnBool | src/config.cpp:88-106 | succeeds exactly on the seven boolean keys and then sets only that field; other names throw |
| Config.SessionOptionsOnArray | src/config.cpp:108-112 | only "provider_options" opens an array; other names throw |
| Config.EncoderInputsOnString | src/config.cpp:122-136 | the five accepted names each write one field, "audio_features" writing the position_ids field; other fields are kept; unknown names throw |
| Config.DecoderInputKeyNamed | src/config.cpp:145-173 | the key found for a member is the key with that member name |
| Config.DecoderInputsOnString | src/config.cpp:145-173 | succeeds exactly on the twelve input names and then writes only that name's field; other names throw |
| Config.EncoderOutputsOnString | src/config.cpp:182-192 | succeeds exactly on the three output names and writes only that field; other names throw |
| Config.DecoderOutputsOnString | src/config.cpp:201-215 | succeeds exactly on the five output names and writes only that field; other names throw |
| Config.VisionInputsOnString | src/config.cpp:421-429 | "pixel_values" and "image_sizes" each write only their field; other names throw |
| Config.VisionOutputsOnString | src/config.cpp:438-444 | only "image_features" is accepted, and it sets the image-features name |
| Config.EmbeddingInputsOnString | src/config.cpp:503-511 | "input_ids" and "image_features" each write only their field; other names throw |
| Config.EmbeddingOutputsOnString | src/config.cpp:520-526 | only "inputs_embeds" is accepted, and it sets the embeddings name |
| Config.StringArrayOnString | src/config.cpp:224-226 | the value is appended after the existing entries, whatever the member name |
| Config.StringArrayKeepsOrder | src/config.cpp:224-226 | a whole string array ends as the old list followed by every value in document order |
| Config.StringMapOnString | src/config.cpp:235-237 | the member name maps to the value; every other key keeps its value |
| Config.LastValue | src/config.cpp:235-237 | the value of the last event naming a key; None exactly when no event names it |
| Config.StringMapLastValueWins | src/config.cpp:235-237 | after a run of events a key is present exactly when it was before or some event names it, and it holds the last such value, or else its old value |
| Config.StringMapEventsSnoc | src/config.cpp:235-237 | feeding one more event is one more `OnString` on the map so far |
| Config.PipelineModelOnString | src/config.cpp:246-252 | only "filename" is accepted and it writes only the filename; other names throw |
| Config.PipelineModelOnBool | src/config.cpp:254-262 | only the two run_on flags are accepted, each writing only itself; other names throw |
| Config.PipelineModelOnObject | src/config.cpp:264-273 | "session_options" resets the stage's session options to empty and routes to them; "output_names_forwarder" routes to the map; other names throw |
| Config.PipelineModelOnArray | src/config.cpp:275-282 | "inputs" and "outputs" route to the string arrays; other names throw |
| Config.PipelineObjectOnObject | src/config.cpp:295-300 | each member appends one stage whose id is the member name; earlier stages are kept |
| Config.PipelineObjectsKeepOrder | src/config.cpp:295-300 | after a run of pipeline objects the stage ids are the old ids followed by the member names in order, and the old stages are kept |
| Config.ModelIdsAppend | src/config.cpp:295-300 | the ids of two lists of stages laid end to end are the ids of each in turn |
| Config.EncoderOnString | src/config.cpp:322-328 | only "filename" is accepted, and it writes only the filename |
| Config.EncoderOnNumber | src/config.cpp:330-342 | the four size settings each write only their field; other names throw |
| Config.EncoderOnObject | src/config.cpp:344-355 | "session_options", "inputs" and "outputs" route to their elements; other names throw |
| Config.DecoderOnString | src/config.cpp:367-373 | only "filename" is accepted, and it writes only the filename |
| Config.DecoderOnNumber | src/config.cpp:375-389 | the five size settings each write only their field; other names throw |
| Config.DecoderOnArray | src/config.cpp:404-408 | only "pipeline" opens an array; other names throw |
| Config.VisionOnString | src/config.cpp:453-459 | only "filename" is accepted; the nested inputs and outputs are untouched |
| Config.EmbeddingOnString | src/config.cpp:535-541 | only "filename" is accepted; the nested inputs and outputs are untouched |
| Config.InputsOutputsOnObject | src/config.cpp:461-469 | "inputs" and "outputs" route to their elements; other names throw (vision and embedding alike) |
| Config.ModelKeyNamed | src/config.cpp:562-588 | the key found for a member is the key with that member name |
| Config.ModelOnString | src/config.cpp:562-568 | only "type" is accepted, and it writes only the model type |
| Config.ModelOnNumber | src/config.cpp:570-588 | the seven id and size settings each write only their field; the EOS list and sections are kept; other names throw |
| Config.ModelOnArray | src/config.cpp:590-594 | only "eos_token_id" may be an array |
| Config.ModelOnObject | src/config.cpp:596-610 | "encoder", "decoder", "vision" and "embedding" route to their sections; other names throw |
| Config.RootOnObject | src/config.cpp:708-716 | "model" and "search" route to their sections; other names throw |
| Config.EosOnNumber | src/config.cpp:480-482 | every number is appended to the EOS list and nothing else changes |
| Config.EosOnComplete | src/config.cpp:484-494 | an empty list changes nothing; otherwise the first id becomes the primary EOS id, and a one-element list is cleared while a longer one is kept |
| Config.EosNumbersAppend | src/config.cpp:480-482 | the numbers of an array are appended to the EOS list in order |
| Config.EosArrayNormalises | src/config.cpp:477-498 | a whole array on a model with no ids yet: `[]` leaves the model as it was; `[t]` sets only the primary id; a longer list sets the primary id to its first element and keeps the list |
| Config.SearchNumberKeyNamed | src/config.cpp:628-658 | the key found for a number member is the key with that member name |
| Config.SearchFlagKeyNamed | src/config.cpp:660-670 | the key found for a boolean member is the key with that member name |
| Config.SearchOnString | src/config.cpp:624-626 | every string member of the search section throws |
| Config.SearchOnNumber | src/config.cpp:628-658 | succeeds exactly on the twelve number keys and then writes only that setting; other names throw |
| Config.SearchOnBool | src/config.cpp:660-670 | succeeds exactly on the three boolean keys and then writes only that setting; other names throw |
| Config.CudaGraphScanFirstDecisive | src/config.cpp:684-697 | CUDA graphs are enabled exactly when the first provider that decides ("dml", or "cuda" with an enable_cuda_graph option) decides yes ("dml", or the option is "1") |
| Config.IsCudaGraphEnabled | src/config.cpp:684-697 | the two nested loops with early returns compute the first-decisive-provider answer |
| Config.ApplyDefaults | src/config.cpp:760-764 | fails exactly when context_length is 0; a zero max_length becomes context_length and a non-zero one is kept; no other search setting changes |
| Config.ApplyDefaultsIdempotent | src/config.cpp:760-764 | applying the defaults a second time changes nothing |
| Config.Config.Parsed | src/config.cpp:757-758 | the parsed model and search sections are kept as given and the name table starts empty |
| Config.Config.Create | src/config.cpp:757-765 | construction fails exactly when context_length is 0; otherwise the search section is the defaulted one and the name table is empty |
| Config.AddMappingTo | src/config.cpp:767-775 | accepted exactly when the name is new or already maps to the same graph name; a conflict reports both graph names |
| Config.LookupGraphName | src/config.cpp:777-783 | a mapped name gives its graph name and true; an unmapped name gives itself and false |
| Config.AddMappingThenLookup | src/config.cpp:767-783 | after a successful mapping the name resolves to its graph name, and every other name resolves as before |
| Config.AddMappingIdempotent | src/config.cpp:767-775 | re-adding the same pair is accepted and leaves the table as it was |
| Config.Config.AddMapping | src/config.cpp:767-775 | inserts a new name; a conflicting graph name fails and leaves the table as it was; on success the name resolves to its graph name |
| Config.Config.GetGraphName | src/config.cpp:777-783 | answers as the table lookup does |
| KvCache.BlocksIsProduct | src/models/kv_cache.cpp:294-295 | `n` blocks of `size` elements hold `n * size` elements |
| KvCache.BlockFits | src/models/kv_cache.cpp:293-330 | in a buffer of `count` blocks, block `j < count` lies inside the buffer |
| KvCache.Gather | src/models/kv_cache.cpp:293-330 | the reordered buffer holds one block per beam index |
| KvCache.GatherAt | src/models/kv_cache.cpp:293-330 | element `k` of gathered block `j` is element `k` of source block `beams[j]` |
| KvCache.GatherSnoc | src/models/kv_cache.cpp:293-330 | one more beam index appends that beam's block |
| KvCache.CopyBlock | src/models/kv_cache.cpp:323-325 | the destination window becomes the source window and the rest of the destination is kept |
| KvCache.PickedAt | src/models/kv_cache.cpp:293-330 | after a reorder, `past[j*B+k] == present[beam_indices[j]*B+k]` for every beam `j` and offset `k < B` |
| KvCache.InterleaveAt | src/models/kv_cache.cpp:189-205 | slot `2i` holds layer `i`'s key entry and slot `2i+1` its value entry |
| KvCache.LayerNames | src/models/kv_cache.cpp:189-205 | the names alternate key and value per layer, each the layer's pattern formatted with the layer number |
| KvCache.PatternNames | src/models/kv_cache.cpp:40-48 | one name per layer, the pattern formatted with the layer number |
| KvCache.GatherBlocks | src/models/kv_cache.cpp:293-330 | the copy loop leaves block `j` of the past equal to block `beam_indices[j]` of the present, for every `j` |
| KvCache.GatherBlocksPass | src/models/kv_cache.cpp:319-326 | one pass of the copy loop gathers one more block |
| KvCache.BlockStep | src/models/kv_cache.cpp:319-326 | copying block `beams[j]` after the `j` gathered blocks yields `j + 1` gathered blocks |
| KvCache.KvCache.constructor | src/models/kv_cache.cpp:168-234 | sharing is on exactly when the search option is set and num_beams is 1; the empty past has dimension 2 equal to 0, and the working shape then takes max_length when sharing and sequence_length otherwise; names alternate key/value per layer |
| KvCache.KvCache.Add | src/models/kv_cache.cpp:246-266 | records the old list lengths as the window start; appends `2*layer_count` names and slots after the old entries; in shared mode the input window holds the same tensors as the output window |
| KvCache.KvCache.AddEncoder | src/models/kv_cache.cpp:236-244 | appends only the presents, as outputs with their names; the inputs are untouched |
| KvCache.KvCache.PickPastState | src/models/kv_cache.cpp:293-338 | past `index` becomes a fresh tensor of the present's shape whose block `j` is block `beam_indices[j]` of present `index`; other pasts are kept |
| KvCache.KvCache.Update | src/models/kv_cache.cpp:268-289 | in shared mode nothing changes; otherwise pasts become the presents (or their beam reorder), fresh presents take `current_length` in dimension 2, and only the input and output windows are rebound |
| KvCache.KvCache.MovePresentsToPasts | src/models/kv_cache.cpp:274-281 | each past becomes the present or its reorder, and the input window is rebound to the pasts |
| KvCache.KvCache.RenewPresents | src/models/kv_cache.cpp:283-288 | fresh presents of the new length are bound to the output window; nothing else in the lists changes |
| KvCache.GatherHalves | src/models/kv_cache.cpp:101-157 | the key half and the value half (offset by the key-half size) are each reordered by the same beam indices |
| KvCache.GatherHalvesPass | src/models/kv_cache.cpp:139-153 | one pass gathers one more block into each half |
| KvCache.HalvesStep | src/models/kv_cache.cpp:139-153 | copying one block into each half extends both gathered prefixes |
| KvCache.HalvesDone | src/models/kv_cache.cpp:101-157 | once every beam is copied, both halves are reordered |
| KvCache.KvCacheCombined.constructor | src/models/kv_cache.cpp:30-62 | the empty past has dimension 3 equal to 0 and the working shape takes sequence_length there; one name per layer from the combined patterns |
| KvCache.KvCacheCombined.Add | src/models/kv_cache.cpp:64-74 | records the window start and appends one empty-past input and one present output per layer with their names |
| KvCache.KvCacheCombined.PickPastState | src/models/kv_cache.cpp:101-166 | past `index` becomes a fresh tensor whose two halves are the beam reorders of the present's halves |
| KvCache.KvCacheCombined.Update | src/models/kv_cache.cpp:76-97 | requires beam indices when searching with several beams; pasts become the presents or their reorder; fresh presents take `current_length` in dimension 3; only the window is rebound |
| KvCache.KvCacheCombined.PickPasts | src/models/kv_cache.cpp:82-88 | every past becomes the present or its reorder |
| KvCache.KvCacheCombined.Rebind | src/models/kv_cache.cpp:90-96 | fresh presents of the new length; input window bound to the pasts and output window to the presents; nothing else changes |
| KvCache.KvCacheCombined.RebindSlot | src/models/kv_cache.cpp:92-95 | one slot gets a fresh present and both windows are rebound one slot further |
| KvCache.CrossCache.constructor | src/models/kv_cache.cpp:340-381 | the shape has 1500 in dimension 2; names alternate key/value per layer; one fresh tensor per slot |
| KvCache.CrossCache.AddOutputs | src/models/kv_cache.cpp:383-388 | appends the cross tensors as outputs with their names; inputs untouched |
| KvCache.CrossCache.AddInputs | src/models/kv_cache.cpp:390-395 | appends the cross tensors as inputs with their names; outputs untouched |
| KvCache.PagedNames | src/models/kv_cache.cpp:419-425 | name `i` is the prefix followed by the decimal layer number |
| KvCache.PagedCacheOrchestrator.Make | src/models/kv_cache.cpp:397-426 | one layer per hidden layer of the decoder; shape `[num_blocks, block_size*head_size*num_kv_heads]` read from the cache options; one fresh key cache and one fresh value cache per layer, with their names |
| KvCache.PagedCacheOrchestrator.Create | src/models/kv_cache.cpp:397-427 | construction fails exactly on a non-CUDA device |
| KvCache.PagedCacheOrchestrator.Add | src/models/kv_cache.cpp:429-454 | records the old input count as the offset; appends key_cache.i and value_cache.i alternately for every layer; outputs untouched |
| KvCache.PagedCacheOrchestrator.AddLayer | src/models/kv_cache.cpp:442-445 | one pass appends one layer's key cache and then its value cache |
| KvCache.PagedCacheOrchestrator.Update | src/models/kv_cache.cpp:456-473 | changes nothing |
| KvCache.CreateCacheManager | src/models/kv_cache.cpp:475-482 | the paged orchestrator exactly when paged_cache is set, failing on non-CUDA devices; otherwise a `KV_Cache` |
| Pipeline.Occurs | src/models/decoder_only_pipeline.cpp:50-57 | true exactly when the name occurs in the list |
| Pipeline.Stage.HasInput | src/models/decoder_only_pipeline.cpp:50-57 | true exactly when the stage's configuration declares the name as an input |
| Pipeline.Stage.HasOutput | src/models/decoder_only_pipeline.cpp:59-66 | true exactly when the stage's configuration declares the name as an output |
| Pipeline.ProviderNamed | src/models/decoder_only_pipeline.cpp:76-78 | some provider has the given name |
| Pipeline.SupportsPrimaryDevice | src/models/decoder_only_pipeline.cpp:68-91 | CPU: true; CUDA: true exactly when the stage has no session options or some provider is "cuda"; any other device: error |
| Pipeline.DeviceCheck | src/models/decoder_only_pipeline.cpp:135-148 | a stage passes exactly when it declares no managed name or supports the primary device; otherwise the error names the first declared managed name and the stage's model id |
| Pipeline.SomeProviderNamed | src/models/decoder_only_pipeline.cpp:18-19 | some provider has a non-empty name |
| Pipeline.AllocatorSession | src/models/decoder_only_pipeline.cpp:9-37 | the allocator comes from the first stage whose session options name a provider, or from the first stage when none does |
| Pipeline.DeclaredMembers | src/models/decoder_only_pipeline.cpp:135-148 | a managed name is attached exactly when it is managed and the stage declares it |
| Pipeline.DeclaredAppend | src/models/decoder_only_pipeline.cpp:135-148 | filtering a concatenation filters each part in turn |
| Pipeline.DeclaredSnoc | src/models/decoder_only_pipeline.cpp:135-148 | the attached names grow by the next managed name exactly when the stage declares it |
| Pipeline.DeclaredFirst | src/models/decoder_only_pipeline.cpp:135-148 | the first declared managed name is the first one attached |
| Pipeline.DeclaredDistinct | src/models/decoder_only_pipeline.cpp:135-148 | distinct managed names give distinct attached names |
| Pipeline.Lookup | src/models/decoder_only_pipeline.cpp:147 | the tensor of the first slot bound to the name, or null when none is |
| Pipeline.Bound | src/models/decoder_only_pipeline.cpp:146-147 | one tensor per picked name, each the tensor bound to that name |
| Pipeline.BoundSnoc | src/models/decoder_only_pipeline.cpp:146-147 | picking one more name appends its tensor |
| Pipeline.PickManaged | src/models/decoder_only_pipeline.cpp:135-174 | the managed loop returns the device verdict; on success it picks exactly the declared managed names, in managed order, with their tensors |
| Pipeline.PickPool | src/models/decoder_only_pipeline.cpp:152-157 | picks each pool entry whose name the stage declares as an input, once each, with the pool's tensor |
| Pipeline.Fill | src/models/decoder_only_pipeline.cpp:177-183 | the existing names come first and are kept |
| Pipeline.FillMembers | src/models/decoder_only_pipeline.cpp:177-183 | after filling, a name is listed exactly when it was listed before or is a declared output |
| Pipeline.FillDistinct | src/models/decoder_only_pipeline.cpp:177-183 | filling lists no name twice when the existing names had none twice |
| Pipeline.FillIdempotent | src/models/decoder_only_pipeline.cpp:177-183 | a second fill over the same declarations adds nothing |
| Pipeline.FillCovered | src/models/decoder_only_pipeline.cpp:177-183 | when every declared output is already listed, filling adds nothing |
| Pipeline.FillNames | src/models/decoder_only_pipeline.cpp:177-183 | the fill-in loop computes `Fill` |
| Pipeline.PublishKeys | src/models/decoder_only_pipeline.cpp:190-195 | after publishing, a name is in the pool exactly when it was before or is an unmanaged output of the stage |
| Pipeline.PublishLastWins | src/models/decoder_only_pipeline.cpp:190-195 | the pool holds the last unmanaged output published under a name |
| Pipeline.PublishKeepsManaged | src/models/decoder_only_pipeline.cpp:190-195 | managed output names never enter the pool, so what it held under them stays |
| Pipeline.Executions | src/models/decoder_only_pipeline.cpp:127 | stages `0 .. n-1` execute in order |
| Pipeline.ExecutionsSnoc | src/models/decoder_only_pipeline.cpp:127 | one more stage executing extends the executions by it |
| Pipeline.Execute | src/models/decoder_only_pipeline.cpp:186 | the session fills every output slot it was given |
| Pipeline.AllRanSnoc | src/models/decoder_only_pipeline.cpp:127-196 | one more stage that ran extends the record of stages that ran |
| Pipeline.ChainedSnoc | src/models/decoder_only_pipeline.cpp:190-195 | a stage publishing into the latest pool extends the chain of pools |
| Pipeline.ChainedAt | src/models/decoder_only_pipeline.cpp:125-195 | the first pool is empty and each next pool is the previous one after that stage published |
| Pipeline.PoolScope | src/models/decoder_only_pipeline.cpp:125-195 | every name in stage `k`'s pool is an unmanaged output of a stage before `k` in the same step |
| Pipeline.Stage.constructor | src/models/decoder_only_pipeline.cpp:44-48 | the stage keeps its index and configuration entry and starts with fresh, empty input and output lists |
| Pipeline.PipelineState.constructor | src/models/decoder_only_pipeline.cpp:100-115 | one stage per pipeline entry in configuration order, each with its own empty lists; first run pending |
| Pipeline.PipelineState.Entries | src/models/decoder_only_pipeline.cpp:112-114 | the configuration entry of each stage, in order |
| Pipeline.PipelineState.StageCheck | src/models/decoder_only_pipeline.cpp:135-174 | a stage passes exactly when it declares no managed input or output, or supports the primary device |
| Pipeline.PipelineState.UpdateInputsOutputs | src/models/decoder_only_pipeline.cpp:201-207 | records one update of the managed tensors |
| Pipeline.PipelineState.Run | src/models/decoder_only_pipeline.cpp:117-199 | every run but the first updates the managed tensors once, before any stage; `first_run_` is false afterwards; the stages ran as `StagesRan` states |
| Pipeline.PipelineState.RunStages | src/models/decoder_only_pipeline.cpp:125-196 | stages run in order with a pool that starts empty and chains through their publications, up to the first one that fails its device check |
| Pipeline.PipelineState.Completed | src/models/decoder_only_pipeline.cpp:127-196 | a step in which every stage ran passes |
| Pipeline.PipelineState.Stopped | src/models/decoder_only_pipeline.cpp:137-144 | a step stopped by a stage's device check fails with that error before that stage runs |
| Pipeline.PipelineState.Advance | src/models/decoder_only_pipeline.cpp:127-196 | stage `i` runs after stages `0 .. i-1` and extends the record, or stops the step |
| Pipeline.PipelineState.Step | src/models/decoder_only_pipeline.cpp:128-195 | a stage fails exactly when its check fails; otherwise it is bound, executed and publishes |
| Pipeline.PipelineState.BindInputs | src/models/decoder_only_pipeline.cpp:129-157 | clears the stage's lists; on success its inputs are the declared managed inputs in managed order, then the declared pool entries |
| Pipeline.PipelineState.BindOutputs | src/models/decoder_only_pipeline.cpp:159-183 | on success the outputs are the declared managed outputs, then null slots for every other declared output; the inputs are kept |
| Pipeline.PipelineState.PublishOutputs | src/models/decoder_only_pipeline.cpp:188-195 | the pool after the stage's unmanaged outputs are published |

## Left out

- The JSON tokenizer (`json.h`) is not part of this model, and neither is the file reading of `ParseConfig`. The handlers receive already-parsed events. An event kind a handler does not override is taken to throw `unknown_value_error`, which is the base element's default.
- Floating-point settings (`top_p`, `temperature`, the penalties): JSON numbers arrive as integers. These settings hold that integer as given, and the `static_cast<int>` conversions are not modelled.
- `Root_Element` ignores top-level strings and numbers. No handler is written for them.
- The second `length_penalty` test in `Search_Element::OnNumber` (src/config.cpp:651) can never be reached and is not repeated.
- The handlers are pure functions on the record each element refers to, not in-place writes through a reference.
- `snprintf` layer-name formatting is a function parameter `layerName(pattern, i)`. `std::to_string` is `DecimalString`. Its contract gives only a non-empty result; it is not shown to be decimal or injective.
- Tensor allocation, `cudaMemcpyAsync`, `OrtSession::Create`, `InitDeviceAllocator`, `session_info_` and the element type taken from the session are abstract. A new tensor is a fresh object with the requested shape. The copy in `PickPastState` is a plain element copy on both CPU and CUDA.
- The captured-graph static buffers of `KV_Cache` (src/models/kv_cache.cpp:219-233) are not modelled. Presents are always freshly allocated.
- Logging and `printf` (src/models/kv_cache.cpp:178-184, 409) are not modelled.
- The paged block tables and slot mapping are commented out in this source and are not modelled.
- The iteration order of the `unordered_map` pool: the pool tensors a stage gets are characterised as a set of names, not a sequence.
- Pipeline.PipelineState.UpdateInputsOutputs: records the step in the ghost trace only. The four updates it makes (src/models/decoder_only_pipeline.cpp:201-207) are not modelled: `input_ids_.Update`, `position_inputs_.Update`, `kv_cache_.Update` (which rebinds the past/present window in the managed inputs and outputs, src/models/kv_cache.cpp:268-289) and `logits_.Update`. The model leaves the managed lists unchanged, so later steps bind the stages to the managed tensors as they were after construction. The `Add` calls of input ids, positions, logits and extra inputs are likewise not modelled; the managed lists are a constructor parameter.
- `GetInput`/`GetOutput` are the first slot with that name (`Lookup`).
- KvCache.PagedCacheOrchestrator.Make: takes the resolved cache options as a parameter. `MakeCacheOptions` (src/models/kv_cache.cpp:18-26) and the `CacheOptions` constructor are not part of this model, and neither are the GPU utilisation factor it receives nor the defaults `DefaultBlockSize` 16 and `DefaultCacheGPUUtilizationFactor` 0.3 (src/models/kv_cache.cpp:15-16). `Create` and `CreateCacheManager` take the same parameter.
- Config.PipelineObjectOnObject: the default-constructed `PipelineModel` is a parameter `blank` and is left unconstrained. Its member initialisers (for example whether `session_options` starts empty and the run-on-prompt and run-on-token-generation defaults) live in a header that is not part of this model.
- `IntermediatePipelineState::Run` and each session run are an abstract function of the stage and its bound lists. `Run` does not return the logits.
- `Pipeline.AllocatorSession`: the model returns only the index of the session that provides the device allocator. Sessions and the allocator are not created, and the pipeline must be non-empty; the source would read `sessions_.front()` of an empty list.
- Cross-attention present names of the decoder outputs: no handler writes them, so they keep their defaults. The defaults live in a header that is not part of this model.

## Findings

| source | as written | input that shows it | evidently intended | confidence | as-written member | corrected member |
|---|---|---|---|---|---|---|
| src/config.cpp:49-57 with 35-42 | `ProviderOptionsArray_Element::OnObject` returns its single `object_` for every array entry. The "one member" state of that element therefore carries over from one entry to the next. | `"provider_options": [ { "cuda": {} }, { "dml": {} } ]` throws "Each object in the provider_options array can only have one member" on the second object | each array entry is a fresh object that may name one provider, and the providers are appended in array order | not executed | Config.ProviderArrayAsWrittenRejectsSecondProvider | Config.ProviderArrayAppendsInOrder |
