# ruffbox in Dafny

A model of the core of ruffbox, a browser live-coding sampler and synthesizer. The model covers five parts.

**Pattern language** (ruffbox-pattern):
- the nom grammar of a pattern line (`rnd >> bd ~ sn @rate: cyc >> 1.0 0.5`) and of a variable definition;
- the sequence generators: cycle, random, learned, ramp and bounce;
- `MainEvent` and `EventSequence`;
- the `Scheduler`, which evaluates the text, generates the trigger events of each tick and compensates timing drift.

**Audio engines.** There are three `Ruffbox` engines:
- the plain one (src/ruffbox.rs);
- the sampler-only scheduling one (ruffbox-sampler);
- the synth one (ruffbox-synth), which adds prepared instances and a late-event policy.

The engines are modelled over one shared dispatch core (`Dispatch`). That core covers:
- retaining unfinished voices;
- admitting the queue;
- sorting the pending events;
- dispatching the events due in the block at their frame offset;
- rendering the running voices.

**Sampler voice.** The three near-identical copies of sampler.rs are modelled once (`Voice`).

**Vocabulary.** The parameter codes and source types of synth.rs.

**Audio worklet** (js/worklet.js). The message handler and `process` of the `AudioWorkletProcessor`. Calls into the wasm instance are recorded as a list of `Call`s rather than executed.

Real numbers stand for `f32`/`f64` samples and times, and Dafny's unbounded integers stand for `usize`. Panics, traps and exceptions that user text can reach are modelled as `None` results. The engines' `trigger` and `prepare_instance` panic on an unloaded or empty buffer. Each is modelled twice: once guarded by a precondition, and once as a `Try` variant that returns `None` on those inputs.

The Rust unit tests are stated as lemmas about the model:
- all seven parser tests: `ParserExamples`;
- the four playback tests of each scheduling engine: `SamplerScenarios` and `SynthScenarios`.

The playback lemmas take the tests' block clock as hypotheses, which `TestClock` discharges for the constants.

## Model

| member | source | states |
|---|---|---|
| Common.Mix | ruffbox-sampler/src/ruffbox.rs:109-111 | the output block is the frame-wise sum of the two blocks, frame for frame |
| Common.Zeros | ruffbox-sampler/src/ruffbox.rs:82 | a fresh output block is 128 frames of silence |
| Voice.WithBufferRef | ruffbox-sampler/src/ruffbox/sampler.rs:25-31 | a new voice is fresh, at cursor 0, over the given buffer |
| Voice.Finish | ruffbox-sampler/src/ruffbox/sampler.rs:35-44 | after `finish` the voice reports finished; its cursor and buffer are unchanged |
| Voice.RenderFrom | ruffbox-sampler/src/ruffbox/sampler.rs:49-57 | the loop from frame i writes exactly the frames i..127, keeps the buffer, leaves the cursor advanced by that many frames but never past the last element, and finishes the voice iff the last element was emitted |
| Voice.RenderFromFrames | ruffbox-sampler/src/ruffbox/sampler.rs:49-57 | each frame the loop writes is the buffer element under the cursor, or the last element once the cursor has reached it |
| Voice.GetNextBlock | ruffbox-sampler/src/ruffbox/sampler.rs:46-59 | a block has 128 frames; the cursor moves on by the frames written from `start`, never past the last element, and the voice becomes finished exactly when that element is reached |
| Voice.BlockFrames | ruffbox-sampler/src/ruffbox/sampler.rs:46-59 | the block is silent before `start`; from `start` on it reads the buffer from the cursor, holding the last element |
| Voice.FinishedIsAbsorbing | ruffbox-sampler/src/ruffbox/sampler.rs:54-56 | no block turns a finished voice back to fresh |
| Voice.ConsecutiveBlocksAreContiguous | ruffbox-sampler/src/ruffbox/sampler.rs:46-59 | the next block, from frame 0, continues the buffer exactly where the previous block stopped |
| Voice.CursorComposes | ruffbox-sampler/src/ruffbox/sampler.rs:52-53 | advancing m frames and then n frames is advancing m + n frames |
| Voice.ShortBufferPlaysWithinBlock | ruffbox-sampler/src/ruffbox/sampler.rs:46-59 | a buffer that fits in the rest of the block plays every element once, in order, from `start`, and the voice ends finished |
| Voice.SetParameterIsInert | ruffbox-synth/src/ruffbox/synth/sampler.rs:29-31 | the synth sampler's `set_parameter` changes no block the voice renders |
| Vocabulary.ParameterCode | ruffbox-synth/src/ruffbox/synth.rs:19-50 | every parameter's code is in 0..29 |
| Vocabulary.ParameterFromCode | ruffbox-synth/src/ruffbox/synth.rs:19-50 | a code decodes exactly when it is in 0..29 |
| Vocabulary.ParameterCommentsMatchOrder | ruffbox-synth/src/ruffbox/synth.rs:19-50 | the code in each variant's inline comment is its position in the declaration |
| Vocabulary.ParameterCodesInjective | ruffbox-synth/src/ruffbox/synth.rs:19-50 | distinct parameters have distinct codes |
| Vocabulary.ParameterCodeRoundTrip | ruffbox-synth/src/ruffbox/synth.rs:19-50 | decoding a parameter's code gives that parameter back |
| Vocabulary.MasterParameterCodes | ruffbox-synth/src/ruffbox/synth.rs:22-45 | the master effects have the codes 25, 23, 5, 3 and 2 that the worklet sends |
| Vocabulary.SourceTypeCode | ruffbox-synth/src/ruffbox/synth.rs:52-59 | source-type codes are 0..4 |
| Vocabulary.SourceTypeFromCode | ruffbox-synth/src/ruffbox/synth.rs:52-59 | a source-type code decodes exactly when it is in 0..4 |
| Vocabulary.SourceTypeCodeRoundTrip | ruffbox-synth/src/ruffbox/synth.rs:52-59 | the source-type codes are a bijection with the five variants |
| Dispatch.Truncate | ruffbox-sampler/src/ruffbox.rs:107-108 | `as usize` on an f64: the whole part for non-negative values, 0 for negative ones, within one of the value |
| Dispatch.Round | ruffbox-synth/src/ruffbox.rs:129-130 | `round() as usize`: within one half of the value when non-negative, and 0 for negative values |
| Dispatch.OffsetIsNearExact | ruffbox-sampler/src/ruffbox.rs:106-108 | an event's frame offset is within one frame of its exact position, and is 0 for an event at or before the block start |
| Dispatch.RetainLaw | ruffbox-sampler/src/ruffbox.rs:86 | `retain` keeps every unfinished voice as often as it occurs and drops every finished one |
| Dispatch.RetainAppend | ruffbox-sampler/src/ruffbox.rs:86 | `retain` decides voice by voice: retaining a concatenation retains each part, so the kept voices stay in their original order |
| Dispatch.RetainKeepsUnfinished | ruffbox-sampler/src/ruffbox.rs:86 | with no finished voice, `retain` changes nothing |
| Dispatch.RetainDropsFinished | ruffbox-sampler/src/ruffbox.rs:86 | with every voice finished, `retain` empties the list |
| Dispatch.RetainIdempotent | ruffbox-sampler/src/ruffbox.rs:86 | dropping finished voices twice is dropping them once |
| Dispatch.AdmitLaw | ruffbox-synth/src/ruffbox.rs:108-117 | every queued event goes exactly one way: its voice starts at once, or the event waits in the pending list as often as it was queued; nothing else is added |
| Dispatch.AdmitAppend | ruffbox-synth/src/ruffbox.rs:108-117 | admission decides event by event in queue order: a live event's voice starts now, any other event waits |
| Dispatch.InsertLaw | ruffbox-sampler/src/ruffbox.rs:98 | inserting keeps the list sorted by timestamp and adds exactly the one event |
| Dispatch.ConsSorted | ruffbox-sampler/src/ruffbox.rs:98 | an event no later than a sorted list's head can go in front |
| Dispatch.SortLaw | ruffbox-sampler/src/ruffbox.rs:97-98 | the sorted pending list is ordered by timestamp and is a permutation of the input |
| Dispatch.InsertLatest | ruffbox-sampler/src/ruffbox.rs:98 | an event no earlier than every element goes last |
| Dispatch.SortSortedIsIdentity | ruffbox-sampler/src/ruffbox.rs:97-98 | sorting an already sorted list changes nothing |
| Dispatch.SplitDueLaw | ruffbox-sampler/src/ruffbox.rs:99-104 | the `while` loop takes a prefix of events all within the block, and the first event it leaves lies beyond the block end |
| Dispatch.SplitDueSorted | ruffbox-sampler/src/ruffbox.rs:99-104 | on a sorted list an event is dispatched iff its timestamp is within the block, and what stays is sorted |
| Dispatch.SplitRestIsSortedSuffix | ruffbox-sampler/src/ruffbox.rs:102-104 | what stays pending is a sorted suffix of the sorted list |
| Dispatch.LateMemberStays | ruffbox-sampler/src/ruffbox.rs:102-104 | an event beyond the block end is never dispatched |
| Dispatch.SumBlocksAppend | ruffbox-sampler/src/ruffbox.rs:109-125 | summing blocks onto the output distributes over concatenation |
| Dispatch.SumBlocksSingle | ruffbox-sampler/src/ruffbox.rs:82 | no blocks sum to silence, and one block sums to itself |
| Dispatch.SumOfTwo | ruffbox-sampler/src/ruffbox.rs:109-125 | two blocks sum to their frame-wise mix |
| Dispatch.DispatchDueLaw | ruffbox-sampler/src/ruffbox.rs:102-118 | each due event contributes one block rendered from its own offset, in order, and the voices kept running are exactly the unfinished rendered ones, in order |
| Dispatch.RenderRunningLaw | ruffbox-sampler/src/ruffbox.rs:121-126 | every running voice contributes one block from frame 0 and stays in its place, advanced by that block |
| Dispatch.Process | ruffbox-sampler/src/ruffbox.rs:81-129 | as written, a block drains the queue and records the stream time; `ProcessOutputLaw` states its output and running voices, `ProcessKeepsLatePending` its pending list |
| Dispatch.ProcessCorrected | ruffbox-sampler/src/ruffbox.rs:81-129 | corrected, a block drains the queue and records the stream time; `ProcessCorrectedOutputLaw` states its output and running voices |
| Dispatch.ProcessOutputLaw | ruffbox-sampler/src/ruffbox.rs:81-129 | as written, each output frame sums two kinds of block. One is a block per due event, rendered from its offset. The other is a block from frame 0 for every voice running after the loop: the unfinished old voices, the queue's live ones, then the unfinished dispatched ones. Those voices, advanced, are the new running list |
| Dispatch.ProcessCorrectedOutputLaw | ruffbox-sampler/src/ruffbox.rs:81-129 | corrected, every old or newly live voice renders one block from frame 0 and every due event one block from its offset, each voice once. The dispatched voices that are unfinished join the running list after the others |
| Dispatch.SumBlocksFrame | ruffbox-sampler/src/ruffbox.rs:109-125 | each output frame is the sum of that frame over all the blocks added |
| Dispatch.OffsetByPolicy | ruffbox-synth/src/ruffbox.rs:129-130 | the offset in frames is the rounded distance from the block start for the synth engine, and the truncated one for the sampler engine |
| Dispatch.ProcessKeepsLatePending | ruffbox-sampler/src/ruffbox.rs:86-118 | after a block the pending list is sorted, and it holds each old or newly queued event that was not started at once and lies beyond the block, exactly as often as it occurred |
| Dispatch.SplitRestKeepsLate | ruffbox-sampler/src/ruffbox.rs:98-118 | every old or newly waiting event beyond the block end stays pending |
| EngineLaws.AdmitTwoImmediate | ruffbox-sampler/src/ruffbox.rs:89-95 | two events stamped 0.0 both start at once, in send order |
| EngineLaws.IdleIsSilent | ruffbox-sampler/src/ruffbox.rs:81-129 | an engine with nothing running, pending or queued stays idle and outputs silence |
| EngineLaws.QuietBlock | ruffbox-sampler/src/ruffbox.rs:99-104 | a block that ends before the first pending event is silent and leaves the pending list as it was |
| EngineLaws.QuietRun | ruffbox-sampler/src/ruffbox.rs:81-129 | a run of blocks, each of which leaves the idle engine unchanged, ends in that same engine |
| EngineLaws.QuietBlocks | ruffbox-sampler/src/ruffbox.rs:99-104 | every block that ends before the first pending event is quiet |
| EngineLaws.AdmitAllWait | ruffbox-sampler/src/ruffbox.rs:89-95 | queued events none of which is stamped "now" all go to the pending list, in order |
| EngineLaws.QueueWaits | ruffbox-sampler/src/ruffbox.rs:86-104 | the first block after triggering only future events moves the sorted queue to the pending list and is silent |
| EngineLaws.WaitingRun | ruffbox-sampler/src/ruffbox.rs:81-129 | blocks before the first of some future events leave the engine idle, with the events pending in timestamp order |
| EngineLaws.PairDueTogether | ruffbox-sampler/src/ruffbox.rs:102-118 | two events due in one block produce the mix of both voices, each rendered once from its own offset |
| EngineLaws.PairDueApart | ruffbox-sampler/src/ruffbox.rs:102-118 | two events due in different blocks each sound alone, in their own block |
| EngineLaws.LaterAloneDue | ruffbox-sampler/src/ruffbox.rs:102-118 | a lone pending event renders alone in its block, after the blocks that end before it |
| EngineLaws.ImmediatePair | ruffbox-sampler/src/ruffbox.rs:89-95 | events stamped 0.0 sound in the block that admits them, from frame 0, summed |
| EngineLaws.LeadingDue | ruffbox-sampler/src/ruffbox.rs:102-118 | a due head of the pending list renders once at its offset and, once finished, is not kept running; the rest stays pending |
| EngineLaws.BothDue | ruffbox-sampler/src/ruffbox.rs:102-118 | a sorted pending pair due in the block renders each voice once, at its own offset |
| EngineLaws.AsWrittenRendersDispatchedTwice | ruffbox-sampler/src/ruffbox.rs:113-126 | as written, a voice dispatched in the block that is still sounding is mixed twice: once from its offset, and once more from frame 0 |
| EngineLaws.CorrectedRendersDispatchedOnce | ruffbox-sampler/src/ruffbox.rs:113-126 | corrected, that voice is mixed once, and it joins the running voices unchanged |
| EngineLaws.CorrectedContinues | ruffbox-sampler/src/ruffbox.rs:121-126 | in the next corrected block, a lone running voice renders from frame 0 |
| EngineLaws.LateEventPolicies | ruffbox-synth/src/ruffbox.rs:108-117 | the synth variant starts a past event at once; the sampler variant sends it through the pending list, where it is due at once and starts at frame 0 |
| PlainEngine.New | src/ruffbox.rs:18-26 | a new engine has nothing loaded, running or queued |
| PlainEngine.Load | src/ruffbox.rs:55-58 | `load` appends a copy of the samples and returns its index |
| PlainEngine.Trigger | src/ruffbox.rs:49-53 | `trigger` queues a fresh voice over the indexed buffer and changes nothing else |
| PlainEngine.TryTrigger | src/ruffbox.rs:49-53 | `trigger` ends in a panic exactly when the index is past the loaded buffers or names an empty buffer, the latter in the next `process`; otherwise it queues a fresh voice over that buffer |
| PlainEngine.LoadedIndexTriggers | src/ruffbox.rs:49-58 | the index `load` returns triggers exactly when the loaded samples are not empty, and any index past it panics |
| PlainEngine.Process | src/ruffbox.rs:28-47 | `process` keeps the loaded buffers and drains the queue |
| PlainEngine.ProcessLaw | src/ruffbox.rs:28-47 | every live voice renders one block from frame 0 and is replaced, in its place, by its advanced self; the output frame j is the sum of the voices' frame j |
| PlainEngine.FinishedVoicesAreDropped | src/ruffbox.rs:32 | with every running voice finished and nothing queued, the block is silent and the list empties |
| PlainEngine.OneLiveVoice | src/ruffbox.rs:28-47 | with one live voice, the output is exactly that voice's block |
| PlainEngine.ShortSampleSoundsForOneBlock | src/ruffbox.rs:28-53 | a sample no longer than a block plays from frame 0 to its end in the block after `trigger`, and is dropped after that |
| PlainEngine.LongSamplePlaysContiguously | src/ruffbox.rs:28-53 | a sample longer than a block plays contiguously across two `process` calls |
| PlainEngine.UnfinishedStaysLive | src/ruffbox.rs:32-44 | a lone unfinished voice stays live for the next block |
| PlainEngine.PlaysTwoBlocks | src/ruffbox/sampler.rs:28-41 | a voice over more than a block of samples plays its first 128 samples, then the ones after them |
| SamplerEngine.Load | ruffbox-sampler/src/ruffbox.rs:139-142 | `load` appends a copy of the samples and returns its index |
| SamplerEngine.Trigger | ruffbox-sampler/src/ruffbox.rs:132-136 | `trigger` queues a fresh voice over the indexed buffer, stamped with its time |
| SamplerEngine.TryTrigger | ruffbox-sampler/src/ruffbox.rs:132-136 | `trigger` ends in a panic exactly when the index is past the loaded buffers or names an empty buffer, the latter when the voice is dispatched; otherwise it queues a fresh voice over that buffer with its time |
| SamplerEngine.LoadedIndexTriggers | ruffbox-sampler/src/ruffbox.rs:132-142 | the index `load` returns triggers exactly when the loaded samples are not empty, and any index past it panics |
| SamplerEngine.ProcessBlock | ruffbox-sampler/src/ruffbox.rs:81-129 | one block keeps the loaded buffers, drains the queue and records the stream time; `ProcessBlockLaw` states its output |
| SamplerEngine.ProcessBlockLaw | ruffbox-sampler/src/ruffbox.rs:81-129 | each output frame sums two kinds of block. One is each due event's `get_next_block` from its truncated frame offset. The other is a block from frame 0 for every voice running after the loop. Those voices, advanced, are the running list |
| SamplerEngine.LoadThenTrigger | ruffbox-sampler/src/ruffbox.rs:132-142 | triggering the index `load` returned plays the loaded samples from their first frame |
| SamplerEngine.LateEventWaitsForDispatch | ruffbox-sampler/src/ruffbox.rs:89-95 | a past event not stamped 0.0 waits in the pending list, is due in the current block, and starts at frame 0 |
| SamplerEngine.OpsIsVoice | ruffbox-sampler/src/ruffbox/sampler.rs:9-13 | the engine renders a sampler voice exactly as `get_next_block` does |
| SamplerEngine.OutlastingSampleAsWritten | ruffbox-sampler/src/ruffbox.rs:102-126 | as written, a sample dispatched at frame o > 0 that outlasts the block also sounds from frame 0: frame 0 holds its frame 128 - o where silence belongs |
| SamplerEngine.OutlastingSampleCorrected | ruffbox-sampler/src/ruffbox.rs:102-126 | corrected, the same sample is silent before its onset, plays from its first frame at the onset, and keeps running |
| SamplerEngine.OutlastingSamplePlaysOnce | ruffbox-sampler/src/ruffbox.rs:102-126 | corrected, the onset block and the block after it are the voice's two consecutive blocks |
| SamplerEngine.PlaysFromOnset | ruffbox-sampler/src/ruffbox/sampler.rs:46-59 | those two blocks hold silence, then the sample from its first frame, then the rest of the sample from where the first block stopped |
| SamplerScenarios.TestClock | ruffbox-sampler/src/ruffbox.rs:176-204 | with the tests' block clock, the first 100 blocks end before 0.291 s, block 100 contains it, and the event starts at frame 33 (or 37 four samples later) |
| SamplerScenarios.BasicPlayback | ruffbox-sampler/src/ruffbox.rs:153-173 | after an idle block, two samples triggered at 0.0 start at frame 0 of the next block, summed |
| SamplerScenarios.ScheduledPlayback | ruffbox-sampler/src/ruffbox.rs:176-204 | two samples triggered for 0.291 s sound together from frame 33 of block 100, summed |
| SamplerScenarios.OverlapPlayback | ruffbox-sampler/src/ruffbox.rs:207-245 | the second sample starts at frame 37; frames 33-36 hold the first alone, 37-41 both, and 42-45 the second over the first's held last frame |
| SamplerScenarios.DisjunctPlayback | ruffbox-sampler/src/ruffbox.rs:248-295 | samples triggered ten blocks apart sound alone, each from frame 33 of its block (100 and 110) |
| VoiceFrames.MixFrames | ruffbox-sampler/src/ruffbox.rs:207-245 | two short voices mixed: silence, the first alone, both summed, then the second over the first's held last frame |
| SynthEngine.SampledRendersAsVoice | ruffbox-synth/src/ruffbox/synth/sampler.rs:44-57 | a sample player in the synth engine renders exactly as the sampler voice does |
| SynthEngine.SynthKeepsOffset | ruffbox-synth/src/ruffbox/synth/oscillators.rs:60-74 | an oscillator synth advances once per frame it emits, from the start frame to the end of the block, so a synth dispatched mid-block stays behind one started at frame 0 by the offset |
| SynthEngine.SetSourceParameter | ruffbox-synth/src/ruffbox.rs:63-65 | setting a parameter on an event reaches its source: the sample player ignores it, an oscillator synth records it |
| SynthEngine.NewIsIdle | ruffbox-synth/src/ruffbox.rs:83-98 | a new instance holds no samples and no prepared instances, its engine is idle, and the id invariant holds |
| SynthEngine.LoadSample | ruffbox-synth/src/ruffbox.rs:181-184 | `load_sample` appends a copy of the samples and returns its index |
| SynthEngine.PrepareInstance | ruffbox-synth/src/ruffbox.rs:154-167 | `prepare_instance` returns the counter as a new id, stores the event under it, and keeps every id below the counter |
| SynthEngine.TryPrepareInstance | ruffbox-synth/src/ruffbox.rs:154-167 | preparing a sampler ends in a panic exactly when the buffer number is past the loaded buffers or names an empty buffer; every other preparation returns the counter as a new id |
| SynthEngine.LoadedSamplePrepares | ruffbox-synth/src/ruffbox.rs:154-184 | the number `load_sample` returns prepares a sampler exactly when the loaded samples are not empty, and any number past it panics |
| SynthEngine.SetInstanceParameter | ruffbox-synth/src/ruffbox.rs:169-171 | only the named prepared event changes |
| SynthEngine.Trigger | ruffbox-synth/src/ruffbox.rs:174-178 | `trigger` removes the prepared event and sends exactly it to the queue |
| SynthEngine.ProcessBlock | ruffbox-synth/src/ruffbox.rs:100-151 | one block keeps the buffers, the prepared instances and the counter, drains the queue and records the stream time; `ProcessBlockLaw` states its output |
| SynthEngine.ProcessBlockLaw | ruffbox-synth/src/ruffbox.rs:100-151 | each output frame sums two kinds of block. One is each due event's block from its rounded frame offset. The other is a block from frame 0 for every voice running after the loop. Those voices, advanced, are the running list |
| SynthEngine.LoadThenPrepare | ruffbox-synth/src/ruffbox.rs:154-184 | preparing a sampler over the index `load_sample` returned plays the loaded samples from their first frame |
| SynthEngine.PrepareThenTrigger | ruffbox-synth/src/ruffbox.rs:154-178 | preparing and then triggering leaves the prepared map as it was and queues exactly the new event |
| SynthEngine.PreparedIdsAreConsecutive | ruffbox-synth/src/ruffbox.rs:155 | two instances prepared in turn get consecutive ids |
| SynthEngine.ParameterReachesTrigger | ruffbox-synth/src/ruffbox.rs:169-178 | a parameter set on a prepared synth is seen by that event when it is triggered, and by no other |
| SynthEngine.LateEventStartsAtOnce | ruffbox-synth/src/ruffbox.rs:111-113 | a past event starts at once, from frame 0 |
| SynthScenarios.TestClock | ruffbox-synth/src/ruffbox.rs:221-251 | under the synth timing, block 100 contains 0.291 s and four samples more, and the onsets round to frames 33 and 37 |
| SynthScenarios.BasicPlayback | ruffbox-synth/src/ruffbox.rs:195-218 | after an idle block, two sampler instances triggered at 0.0 start at frame 0 of the next block, summed |
| SynthScenarios.ScheduledPlayback | ruffbox-synth/src/ruffbox.rs:221-251 | two instances prepared for 0.291 s sound together from frame 33 of block 100, summed |
| SynthScenarios.OverlapPlayback | ruffbox-synth/src/ruffbox.rs:254-294 | the second instance starts at frame 37; frames 33-36 hold the first alone, 37-41 both, and 42-45 the second over the first's held last frame |
| SynthScenarios.DisjunctPlayback | ruffbox-synth/src/ruffbox.rs:297-347 | instances prepared ten blocks apart sound alone, each from frame 33 of its block |
| SeqGen.CycleFromSeq | ruffbox-pattern/src/seqgen.rs:51-56 | a new cycle starts at cursor 0 over the given list |
| SeqGen.CycleFromSeqWithIndex | ruffbox-pattern/src/seqgen.rs:58-67 | an index past the end is clamped to the last position, and the empty list wraps to `usize::MAX` |
| SeqGen.ItemNextLaw | ruffbox-pattern/src/seqgen.rs:16-112 | only a cycle whose cursor is off its list traps; every value is an item of the list; random and learned generators do not change; a cycle yields the item under its cursor and moves on one place |
| SeqGen.CycleRunAdvances | ruffbox-pattern/src/seqgen.rs:71-85 | a cycle over a non-empty list never traps, and after n calls its cursor and state are n places further round |
| SeqGen.CycleRunRotates | ruffbox-pattern/src/seqgen.rs:71-81 | the k-th value of a cycle is the item k places after the starting cursor, modulo the length |
| SeqGen.RotateIsModulo | ruffbox-pattern/src/seqgen.rs:74-78 | stepping the cursor k times with wrap-around is `(i + k) mod n` |
| SeqGen.CycleStateCounts | ruffbox-pattern/src/seqgen.rs:71-85 | from a fresh cycle, the state after n calls is n mod the length |
| SeqGen.CycleRebuiltFromState | ruffbox-pattern/src/seqgen.rs:58-85 | rebuilding a cycle from its own valid state gives back the same generator |
| SeqGen.RandomRunMembers | ruffbox-pattern/src/seqgen.rs:28-39 | a random generator yields only members of its list, yields iff the list is non-empty, and keeps state 0 |
| SeqGen.RampFromParams | ruffbox-pattern/src/seqgen.rs:126-133 | the increment is `(max - min) / steps`; building fails only on `0 / 0` |
| SeqGen.BounceFromParams | ruffbox-pattern/src/seqgen.rs:166-176 | the bounce keeps min, the range `max - min` and `360 / steps` degrees per step, counting from 0 |
| SeqGen.RampClimbs | ruffbox-pattern/src/seqgen.rs:137-149 | within one sweep the k-th value is `min + (count + k) * inc`, and the count then restarts from 0 once it passes `steps` |
| SeqGen.RampSweeps | ruffbox-pattern/src/seqgen.rs:126-149 | with n whole steps, a fresh ramp yields `min, min + inc, ..., max` and is back at its start |
| SeqGen.BounceCounts | ruffbox-pattern/src/seqgen.rs:180-202 | the bounce count grows by one per call and never resets; every call yields unless `steps` is 0; call k yields `min + absSin(degree) * range`, the degree being `(360 / steps) * ((count + k) % steps) % 360` with Rust's float `%` and `absSin` the absolute sine in degrees |
| Parser.Tag | ruffbox-pattern/src/parser.rs:17-36 | `tag(t)` succeeds iff the input starts with t, and leaves what follows |
| Parser.FirstTagFails | ruffbox-pattern/src/parser.rs:18-35 | the alternative of tags fails iff no tag is a prefix of the input |
| Parser.FirstTagFindsWrittenTag | ruffbox-pattern/src/parser.rs:18-35 | in a prefix-free list, the alternative picks exactly the tag the input was written with |
| Parser.ParamNamesPrefixFree | ruffbox-pattern/src/parser.rs:17-36 | no parameter name is a prefix of another, so the order of the alternatives does not matter |
| Parser.FuncNamesPrefixFree | ruffbox-pattern/src/parser.rs:83-93 | no function name is a prefix of another |
| Parser.ParamNameFails | ruffbox-pattern/src/parser.rs:17-36 | `param_name` fails iff the input starts with none of the names |
| Parser.Alphanumeric1Word | ruffbox-pattern/src/parser.rs:48 | the word `alphanumeric1` reads is non-empty and made of ASCII letters and digits only |
| Parser.Spaces0Dropped | ruffbox-pattern/src/parser.rs:98 | `many0(char(' '))` leaves a suffix of its input and drops only spaces |
| Parser.FloatSound | ruffbox-pattern/src/parser.rs:39 | `float` reads a well-formed literal with at least one digit, and what it leaves is a suffix of its input |
| Parser.FloatRoundTrip | ruffbox-pattern/src/parser.rs:39 | `float` reads a written literal back exactly and leaves what follows it |
| Parser.EventNameSound | ruffbox-pattern/src/parser.rs:47-49 | every event name read is `~`, `_` or a run of letters and digits |
| Parser.ParamListRoundTrip | ruffbox-pattern/src/parser.rs:38-44 | `param_list` reads back a written non-empty list of parameters |
| Parser.EventRoundTrip | ruffbox-pattern/src/parser.rs:52-65 | `event` reads back a written event, with or without parameters |
| Parser.EventPatternRoundTrip | ruffbox-pattern/src/parser.rs:67-69 | `event_pattern` reads back a written sequence of events |
| Parser.FloatListRoundTrip | ruffbox-pattern/src/parser.rs:119 | the number list of a clause reads back a written non-empty list |
| Parser.HeaderRoundTrip | ruffbox-pattern/src/parser.rs:103-105 | `param_func_header` reads back `@name` |
| Parser.ParamFuncRoundTrip | ruffbox-pattern/src/parser.rs:107-113 | `param_func` reads back `@param: func` |
| Parser.ClauseRoundTrip | ruffbox-pattern/src/parser.rs:115-121 | `param_func_with_values` reads back a written clause |
| Parser.ClauseListRoundTrip | ruffbox-pattern/src/parser.rs:135 | the clause list reads back written clauses to the end of the line |
| Parser.PatternFuncRoundTrip | ruffbox-pattern/src/parser.rs:95-101 | `pattern_func` reads back a written pattern |
| Parser.LineRoundTrip | ruffbox-pattern/src/parser.rs:123-137 | `pattern_line` reads back a written line to its end |
| Parser.LineClauses | ruffbox-pattern/src/parser.rs:132-136 | the clauses start right after whatever the pattern and the spaces consume |
| Parser.VariableRoundTrip | ruffbox-pattern/src/parser.rs:72-80 | `variable_definiton` reads back a written definition |
| ParserExamples.PatternFuncExample | ruffbox-pattern/src/parser.rs:145-149 | `pattern_func("rnd >> bd ~ ~ sn ~ ~")` succeeds with the six events and consumes everything |
| ParserExamples.PatternLineWithoutParamsExample | ruffbox-pattern/src/parser.rs:152-156 | `pattern_line` on the same text gives a line without clauses |
| ParserExamples.ParamFuncHeaderExample | ruffbox-pattern/src/parser.rs:173-177 | `param_func_header("@rate")` reads `rate` |
| ParserExamples.PatternLineWithOneParamExample | ruffbox-pattern/src/parser.rs:158-163 | `pattern_line("rnd >> bd ~ ~ ~ sn ~ ~ ~ @rate: cyc >> 1.0 0.9 0.6 0.4")` gives the eight events and one `rate` clause with the four values, consuming everything |
| ParserExamples.ParamFuncExample | ruffbox-pattern/src/parser.rs:165-170 | `param_func_with_values("@rate: rnd >> 1.0 0.9 0.6 0.4")` reads the parameter, the generator and the four values, consuming everything |
| ParserExamples.VariableWithoutParamExample | ruffbox-pattern/src/parser.rs:187-191 | `variable_definiton("let xs=sine")` binds `xs` to the bare event `sine` |
| ParserExamples.VariableWithParamExample | ruffbox-pattern/src/parser.rs:179-184 | `variable_definiton("let xs=sine;lvl=0.0")` binds `xs` to the event `sine` with the parameter `lvl` at 0.0 |
| Events.FromParsedInput | ruffbox-pattern/src/lib.rs:46-57 | the event keeps the name it was parsed with; `ParamMapKeys` and `ParamMapLastWins` state its parameters |
| Events.ParamMapKeys | ruffbox-pattern/src/lib.rs:47-51 | the parameter map's keys are exactly the names the event gives |
| Events.ParamMapLastWins | ruffbox-pattern/src/lib.rs:49-51 | a parameter given twice keeps the last value |
| Events.EqAsWrittenNotSymmetric | ruffbox-pattern/src/lib.rs:70-81 | the equality as written accepts an event without parameters against the same event with a level, but not the reverse |
| Events.EventEq | ruffbox-pattern/src/lib.rs:70-81 | intended equality (same name, same parameters) is the as-written test made in both directions |
| Events.EqAsWrittenPreorder | ruffbox-pattern/src/lib.rs:70-81 | the as-written test is reflexive and transitive |
| Events.EventTable | ruffbox-pattern/src/lib.rs:101-110 | each event gets one id, its hash, with an entry in the table, and the table holds nothing else |
| Events.EventTableExact | ruffbox-pattern/src/lib.rs:101-110 | when the hash tells the events apart, the i-th id's entry is the i-th event |
| Events.ItemGenFor | ruffbox-pattern/src/lib.rs:145-150 | the event generator of a line runs over the line's ids, whatever the pattern function |
| Events.ClauseGenFails | ruffbox-pattern/src/lib.rs:115-141 | a clause fails to build iff it is a bounce or ramp with fewer than three values, or a ramp whose ends and steps make `0 / 0`; any other clause generates over its own values |
| Events.UpdatedClauseRestarts | ruffbox-pattern/src/lib.rs:164-208 | an updated parameter generator is the one a fresh line builds, since the generators were cleared first; over an empty `cyc` list both trap on the first call |
| Events.ParamGensKeys | ruffbox-pattern/src/lib.rs:112-141 | when every clause builds, there is one generator per parameter some clause names, and no other |
| Events.ParamGensLastWins | ruffbox-pattern/src/lib.rs:121-140 | a clause that no later clause overrides sets its parameter's generator |
| Events.FromParsedLineAst | ruffbox-pattern/src/lib.rs:92-154 | a built sequence's event generator runs over the ids of the line's events, in line order |
| Events.UpdateSequence | ruffbox-pattern/src/lib.rs:157-233 | an updated sequence's event generator runs over the ids of the new line's events, in line order |
| Events.FromLineWellFormed | ruffbox-pattern/src/lib.rs:92-154 | a built sequence can produce every id it holds, and its event generator has the named kind |
| Events.UpdateKeepsPosition | ruffbox-pattern/src/lib.rs:222-232 | an update fails exactly when building afresh fails; it keeps the sequence well formed; a `cyc` pattern resumes at its position clamped to the new line, and any other pattern's event generator is the fresh line's |
| Events.GetNextEvent | ruffbox-pattern/src/lib.rs:236-261 | a call keeps the event table and the list the event generator runs over |
| Events.GetNextEventLaw | ruffbox-pattern/src/lib.rs:236-261 | a call fails only on a generator trap; a non-rest event carries its fixed parameters, overridden by each generator's value |
| Events.PlayCycle | ruffbox-pattern/src/lib.rs:236-261 | a cycle without clauses plays the stored events round robin from its cursor, never trapping |
| Events.CycleLinePlaysInOrder | ruffbox-pattern/src/lib.rs:92-154 | a fresh `cyc` line without clauses plays its events in line order, the k-th name being that of event k mod n |
| Scheduling.New | ruffbox-pattern/src/lib.rs:289-300 | a new scheduler's two logical clocks start in step |
| Scheduling.TrimIsSlice | ruffbox-pattern/src/lib.rs:309 | `trim` returns a slice of the line, with only whitespace before and after it |
| Scheduling.LinesHaveNoNewline | ruffbox-pattern/src/lib.rs:308 | no line `lines()` yields holds a `\n` |
| Scheduling.LinesJoin | ruffbox-pattern/src/lib.rs:308 | joining the lines with `\n` gives back the text, less a final `\n` |
| Scheduling.LinesFromEmpty | ruffbox-pattern/src/lib.rs:308 | text has lines iff it is non-empty |
| Scheduling.Evaluate | ruffbox-pattern/src/lib.rs:303-354 | no input changes nothing (what a text does is stated by `Scheduling.EvaluateContents`) |
| Scheduling.DefsUntouched | ruffbox-pattern/src/lib.rs:319-326 | a variable that no line defines keeps its event, and stays undefined if it was |
| Scheduling.DefsLastWins | ruffbox-pattern/src/lib.rs:319-326 | a variable holds the event of its last definition among the lines |
| Scheduling.DefsKeys | ruffbox-pattern/src/lib.rs:319-326 | a variable is defined afterwards iff it was before or some line defines it |
| Scheduling.EvalLinesVariables | ruffbox-pattern/src/lib.rs:314-326 | the loop leaves exactly the variables the definitions give, read in order |
| Scheduling.EvalLinesKeeps | ruffbox-pattern/src/lib.rs:327-340 | every sequence there was keeps its place: in a slot the loop counts, a pattern line updates it and an invalid line leaves it; outside the counted slots it is untouched |
| Scheduling.EvalLinesAppends | ruffbox-pattern/src/lib.rs:328-336 | the new sequences come after the old ones, one built per pattern line whose slot had no sequence, in line order |
| Scheduling.EvaluateContents | ruffbox-pattern/src/lib.rs:303-354 | for every text: slot i below the old count holds what the i-th counted line makes of the old sequence there; after those come the sequences built for the pattern lines whose slot was empty, whatever invalid lines came before them; all cut to the slot count; the variables are those the definitions give |
| Scheduling.EvalLinesSlots | ruffbox-pattern/src/lib.rs:314-340 | the loop counts one slot per pattern or invalid line, never drops a sequence, keeps at most the larger of the old count and the slots, and touches only the sequences and variables |
| Scheduling.EvaluateSlots | ruffbox-pattern/src/lib.rs:346-349 | after `evaluate` there are no more sequences than slots, and exactly as many when there were that many before |
| Scheduling.ReevaluateDuplicates | ruffbox-pattern/src/lib.rs:325-340 | an invalid line then a pattern line, evaluated on a scheduler without sequences, leave one sequence; evaluating the same lines again leaves two |
| Scheduling.ReevaluateExample | ruffbox-pattern/src/lib.rs:303-354 | on the text `x` then `rnd >> bd`, one sequence after the first evaluation and two after the second |
| Scheduling.PlaceholderRests | ruffbox-pattern/src/lib.rs:236-261 | the placeholder sequence yields a rest on every call and never changes |
| Scheduling.EvaluateFixedSlots | ruffbox-pattern/src/lib.rs:303-354 | corrected, there is exactly one sequence per slot after `evaluate`, whatever was there before |
| Scheduling.EvalLinesFixedVariables | ruffbox-pattern/src/lib.rs:314-326 | corrected, the variables are those the definitions give, as in the loop as written |
| Scheduling.EvalLinesFixedContents | ruffbox-pattern/src/lib.rs:327-340 | corrected, each counted line puts into its own slot what it makes of the sequence there, and earlier slots keep theirs |
| Scheduling.EvaluateFixedContents | ruffbox-pattern/src/lib.rs:303-354 | corrected, for every text slot i holds what the i-th counted line makes of the old sequence there: a pattern line updates it or builds one; an invalid line keeps it, or leaves a silent placeholder |
| Scheduling.ReevaluateFixed | ruffbox-pattern/src/lib.rs:325-340 | corrected, the pattern sits in slot 1 where it is counted, and a second evaluation keeps two slots |
| Scheduling.FireLaw | ruffbox-pattern/src/lib.rs:362-391 | a sequence yields a trigger iff the resolved name is not a rest; a variable plays its event's name, with its parameters wherever the event sets none |
| Scheduling.FireAllLaw | ruffbox-pattern/src/lib.rs:357-395 | a tick yields at most one trigger per sequence, each stamped with the tick time, none a rest, each with the source type its name selects; the sequences stay as many and well formed |
| Scheduling.GenerateEventsLaw | ruffbox-pattern/src/lib.rs:357-395 | a tick changes only the sequences, and stamps every trigger with the audio time plus the lookahead |
| Scheduling.NewGeneratesNothing | ruffbox-pattern/src/lib.rs:357-395 | a scheduler without sequences generates nothing |
| Scheduling.CompensateTime | ruffbox-pattern/src/lib.rs:398-415 | the delay is the tempo less the lateness of the call, and both clocks advance one tick, keeping in step |
| Scheduling.TicksDoNotDrift | ruffbox-pattern/src/lib.rs:398-415 | after n ticks the clocks are exactly n tempos on, however late each call came |
| Scheduling.TicksAimAtTicks | ruffbox-pattern/src/lib.rs:398-415 | each returned delay aims the next call exactly at the next logical tick |
| Scheduling.Start | ruffbox-pattern/src/lib.rs:418-423 | both logical clocks start at the given times and are in step |
| Scheduling.SetTempo | ruffbox-pattern/src/lib.rs:426-428 | only the tick changes, and the clocks stay in step |
| Worklet.InitialLast | js/worklet.js:59-63 | the constructor's last pushed values are the descriptor defaults |
| Worklet.MasterCodesNameParameters | js/worklet.js:144-167 | the codes sent are the engine's codes for the reverb room size and dampening and the delay time, feedback and dampening frequency |
| Worklet.New | js/worklet.js:56-135 | a new processor has no instance, queue, mapping or code tables |
| Worklet.Padded | js/worklet.js:33-43 | a sample of n values takes n + 3 slots, with one zero slot before the data and two after |
| Worklet.LoadSample | js/worklet.js:27-54 | `loadSample` allocates n + 3 slots, loads the padded data, and maps the id to the buffer number `load` returns |
| Worklet.LoadSampleResolves | js/worklet.js:45-51 | after `loadSample` the id resolves to its samples, and every other id resolves as before |
| Worklet.LoadAllBuffers | js/worklet.js:77-83 | loading the queue appends one padded buffer per queued sample, in arrival order |
| Worklet.LoadCallsPairs | js/worklet.js:77-83 | each queued sample costs one `alloc` of its padded size followed by one `load` of its padded data |
| Worklet.LoadAllResolves | js/worklet.js:77-83 | after the queue is loaded, an id resolves to the samples queued last under it |
| Worklet.LoadAllKeeps | js/worklet.js:77-83 | an id that was not queued resolves as before |
| Worklet.InstantiateLoadsPending | js/worklet.js:71-98 | once the instance exists, every queued sample has its own buffer, numbered in arrival order, and the queue is empty |
| Worklet.InstantiateCalls | js/worklet.js:71-98 | the memory grows first, then the queued samples are loaded, and the two output buffers are allocated last |
| Worklet.InstantiateCallOrder | js/worklet.js:74-92 | between the growth and the output buffers, each queued sample is allocated and loaded, in arrival order |
| Worklet.InstantiateResolves | js/worklet.js:77-83 | after instantiation, an id resolves to the samples queued last under it |
| Worklet.ParamCallsLaw | js/worklet.js:124-126 | one `set_instance_parameter` call per event parameter, in entry order, with the looked-up code |
| Worklet.TriggerLaw | js/worklet.js:118-128 | a trigger is dropped while the instance is missing; otherwise `prepare`, one call per parameter on the new instance, and `trigger` on it |
| Worklet.TriggerWithoutParameterTable | js/worklet.js:116-127 | before the parameter table arrives, `prepare` is called but an event with parameters is never triggered |
| Worklet.OnSample | js/worklet.js:99-113 | intended: a sample is loaded at once when the instance exists, and queued under its id before that |
| Worklet.LateSampleDropped | js/worklet.js:109-110 | as written, a sample arriving after the instance exists changes nothing |
| Worklet.MasterCallsSound | js/worklet.js:144-167 | every master call pushes a changed value under its code |
| Worklet.MasterCallsComplete | js/worklet.js:144-167 | every changed value is pushed |
| Worklet.MasterCallsOrdered | js/worklet.js:144-167 | the codes come strictly in descriptor order, so none is pushed twice |
| Worklet.MasterCallsNone | js/worklet.js:144-167 | there is no master call iff no value changed |
| Worklet.Process | js/worklet.js:137-174 | `process` always keeps the node alive, and before the instance exists it changes nothing |
| Worklet.ProcessLaw | js/worklet.js:144-173 | a block records the values it saw and touches nothing but the call record and those values |
| Worklet.SteadyParametersPushOnce | js/worklet.js:144-167 | a second block with the same values makes only the render call |
| Worklet.DefaultsPushNothing | js/worklet.js:59-63 | read as reals, the constructor's last values are the descriptor defaults, so a block at those defaults pushes no master value |
| Worklet.StepTracks | js/worklet.js:65-130 | every input but one reusing the id keeps a sample on its way, and only the instantiation creates the instance |
| Worklet.RunTracks | js/worklet.js:65-130 | along a run with no such input the sample stays on its way |
| Worklet.SampleEventuallyLoaded | js/worklet.js:99-113 | intended: a sample message is never lost, and its id resolves to the samples once the instance exists |
| Worklet.LateSampleLost | js/worklet.js:109-110 | after the instance exists, the as-written handler loses a sample that the intended one loads |

## Findings

| source | as written | input that shows it | evidently intended | confidence | as-written member | corrected member |
|---|---|---|---|---|---|---|
| ruffbox-sampler/src/ruffbox.rs:113-126 | a dispatched voice that outlasts the block is pushed onto the running voices before they render, so the same block also renders it from frame 0 (the same in ruffbox-synth/src/ruffbox.rs:135-148) | a 200-frame sample due at frame 33 of a block: frame 0 of that block already holds the sample's frame 95 | each voice renders once per block: a dispatched voice joins the running ones for the next block | not executed | EngineLaws.AsWrittenRendersDispatchedTwice | EngineLaws.CorrectedRendersDispatchedOnce |
| js/worklet.js:110 | the handler calls a bare `loadSample(...)`, which is not in scope, so it throws and the sample is dropped | a `loadSample` message after `loadWasm` has resolved | `this.loadSample(...)`, as at line 80 | not executed | Worklet.LateSampleDropped | Worklet.SampleEventuallyLoaded |
| ruffbox-pattern/src/lib.rs:327-340 | a line no parser accepts counts a slot without filling it, so the following pattern lands in a lower slot than it counts | the text `x` then `rnd >> bd` evaluated twice: one sequence, then two copies of the pattern | slot i holds the i-th counted line, so re-evaluating the same text keeps the number of sequences | not executed | Scheduling.ReevaluateDuplicates | Scheduling.ReevaluateFixed |
| ruffbox-pattern/src/lib.rs:70-81 | `eq` checks only that self's parameters appear in other with equal values, so it is not symmetric | `bd` equals `bd;lvl=0.5`, but not the other way round | the same name and the same parameter map | not executed | Events.EqAsWrittenNotSymmetric | Events.EventEq |

For every text, `Scheduling.EvaluateContents` states what the loop as written leaves and `Scheduling.EvaluateFixedContents` what the corrected loop leaves; they agree on the slots that had a sequence before. The first finding is also shown on the sampler engine by `SamplerEngine.OutlastingSampleAsWritten` against `SamplerEngine.OutlastingSampleCorrected`. The model's engines offer both `Dispatch.Process` (as written) and `Dispatch.ProcessCorrected`. The Rust tests use only samples that fit in their block, where the two agree, so the scenario lemmas hold for both.

## Left out

- Floating point: samples, times and generator values are reals. There is no f32/f64 rounding, infinity or NaN, except where a NaN decides a panic (the ramp's `0 / 0`, the bounce with 0 steps). Timing is stated through the block-clock facts the engines use.
- Parser.Float: `float` is modelled as an optional sign, digits and an optional fraction. nom's exponent, `inf` and `nan` forms are not modelled.
- Parser.LineRoundTrip: stated for a line that ends the input. A line that ends in clauses with no values is excluded, because the grammar cannot read it back when another clause follows.
- SeqGen.ItemNextLaw: the random pick (`thread_rng`) and the learned automaton (the vom_rs `Pfa` crate) are inputs, a list of draws, so the laws say what any draw can give, not the distribution.
- SeqGen.BounceCounts: `|sin|` of an angle in degrees is a parameter (`absSin`), so each bounce value is stated as `min + absSin(degree) * range` and not as a number. No lemma states that the values stay between min and max, or that they repeat every `steps` calls.
- Events.EventTable: the hash is a parameter. Collisions are excluded only where the lemmas assume `Distinguishes`, and `HashMap` iteration order is taken as insertion order.
- Events.GetNextEvent: `get_raw_params` converts `N32` to `f32`, which is the identity on reals.
- Events.UpdatedClauseRestarts: `update_sequence` reads the state of a parameter generator it has just cleared, so that state is always 0. The model states this rather than a resumed position.
- Scheduling: the `log!` calls and the `JsValue` serialisation of `TriggerData` are left out. Triggers are a datatype.
- Scheduling.TrimIsSlice: `char::is_whitespace` is the list of Unicode `White_Space` characters; there is no normalisation.
- DSP: the oscillators, synths, filters, envelopes, freeverb, delay and routing of ruffbox-synth are left out, and a non-sampler source's block is a parameter. It depends on the kind, the settings, the number of frames the synth has emitted and the start frame. The master effects are not rendered.
- The wasm glue in ruffbox-synth/src/lib.rs and ruffbox-synth-web/src/lib.rs is not part of this model. The worklet assumes `load` returns the number of buffers loaded before and `prepare` returns the engine's instance counter.
- Worklet: the output buffers' contents and the copy into `outputs` are left out; `process` records a render call. The `_sampleBuffers` bookkeeping list is never read and is left out.
- Worklet.LoadSample: a message whose `length` differs from its data (the `RangeError` path of `Float32Array.set`) is not modelled; the length is taken as the data's length.
- Worklet.Process: JavaScript `!=` is modelled as inequality on reals, so a NaN parameter is not modelled.
- Worklet.RunTracks: a second `loadWasm` starts a new instance whose mapping keeps stale buffer numbers. This is modelled, but the only thing proved about it is that it disturbs a tracked id.
- Dispatch.Process: its own contract states only the bookkeeping. The output and running voices are stated by `Dispatch.ProcessOutputLaw`, and the pending list by `Dispatch.ProcessKeepsLatePending`.
- Dispatch.ProcessCorrected: its own contract states only the bookkeeping. The output and running voices are stated by `Dispatch.ProcessCorrectedOutputLaw`.
- SamplerEngine.ProcessBlock: its own contract states only the bookkeeping. The output is stated by `SamplerEngine.ProcessBlockLaw`.
- SynthEngine.ProcessBlock: its own contract states only the bookkeeping. The output is stated by `SynthEngine.ProcessBlockLaw`.
- Dispatch.Sort: `sort_unstable_by` is modelled as a stable insertion sort, so events with equal timestamps keep their order. `Dispatch.SortLaw` states ordering and permutation, which hold for any sort. The lemmas below state exact lists, which hold for the stable sort only.
- Dispatch.InsertLatest: that the event goes last is a fact of the stable insertion. `sort_unstable_by` may put it before an element with the same timestamp.
- Dispatch.SortSortedIsIdentity: a sorted list is unchanged by the stable sort only. `sort_unstable_by` may permute elements with equal timestamps.
- EngineLaws.QueueWaits: the exact pending list relies on the stable sort. With `sort_unstable_by`, events with equal timestamps may be held in another order.
- EngineLaws.WaitingRun: the exact pending list relies on the stable sort. With `sort_unstable_by`, events with equal timestamps may be held in another order.
- PlainEngine.Trigger: the precondition excludes an unloaded or empty buffer. The panic paths are `PlainEngine.TryTrigger`. An empty buffer panics only at the next `process` in the source, and the model reports it at the trigger.
- SamplerEngine.Trigger: the precondition excludes an unloaded or empty buffer. The panic paths are `SamplerEngine.TryTrigger`. The empty buffer's panic, at its dispatch in the source, is reported at the trigger.
- Voice.Playable: a sampler whose cursor lies outside its buffer, as one over an empty buffer does, cannot render; `get_next_block` panics on it in the source, and the model's rendering functions take only playable samplers.
- Worklet.DefaultsPushNothing: holds of the real-number reading only. The block's parameters are `Float32Array` elements, where 0.65, 0.43 and 0.256 round to other values than the constructor's doubles, so the first block pushes codes 25, 23 and 5.
- Worklet.OnTrigger: a sample id missing from `_sampleMapping` is passed to `prepare` as `undefined` (`None` in the recorded call). What the wasm boundary turns it into is not part of this model.
- SynthEngine.PrepareInstance: the source's match has no arm for `LFSquareSynth`, so that source type is excluded by a precondition. The sampler's unloaded or empty buffer is excluded by a precondition too. Its panic paths are `SynthEngine.TryPrepareInstance`, which reports the empty buffer at preparation rather than at rendering.
- The mpsc and crossbeam channels are a sequence of sent events, and `try_iter` drains it in send order. Threads, capacity and the channel's bound of 1000 are left out.
- usize saturation and wrap-around: the only one modelled is `len - 1` on an empty list in `from_seq_with_index`. Ids, counters and buffer numbers are unbounded.
