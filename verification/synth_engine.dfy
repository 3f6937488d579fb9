/** The synth crate's `Ruffbox` (ruffbox-synth/src/ruffbox.rs): a sample
    store, a map of prepared instances keyed by a counter, and the block
    engine of `Dispatch` with the synth timing (late events start at once,
    offsets are rounded). Voices are sample players or oscillator synths;
    what an oscillator synth computes is signal processing outside this
    model and enters as the `Dsp` parameter. */
module SynthEngine {
  import opened Common
  import opened Vocabulary
  import Voice
  import opened Dispatch
  import opened EngineLaws

  /** A parameter assignment made through `set_parameter`, in order. */
  type Settings = seq<(SynthParameter, real)>

  /** The block an oscillator synth of a kind renders, given its settings,
      how many frames it has emitted and the start frame, and whether it
      has finished (its envelope has run out). */
  datatype Dsp = Dsp(block: (SourceType, Settings, nat, nat) -> Block, done: (SourceType, Settings, nat) -> bool)

  /** A boxed `Source`: a sample player, or an oscillator synth of a kind
      with the settings it was given and the number of frames it has
      emitted (the oscillator's time and the envelope's sample count both
      advance once per frame, from the start frame to the end of the
      block). */
  datatype Source =
    | Sampled(player: Voice.Playable)
    | Synth(kind: SourceType, settings: Settings, frames: nat)

  /** The frames a block rendered from `start` emits. */
  function FramesFrom(start: nat): nat {
    if start < BlockSize then BlockSize - start else 0
  }

  function RenderSource(dsp: Dsp, v: Source, start: nat): Rendered<Source> {
    match v
    case Sampled(p) =>
      var r := Voice.GetNextBlock(p, start);
      Rendered(Sampled(r.voice), r.out)
    case Synth(k, s, n) => Rendered(Synth(k, s, n + FramesFrom(start)), dsp.block(k, s, n, start))
  }

  predicate SourceFinished(dsp: Dsp, v: Source) {
    match v
    case Sampled(p) => Voice.IsFinished(p)
    case Synth(k, s, n) => dsp.done(k, s, n)
  }

  /** The `Source` trait of the synth voices. */
  function Ops(dsp: Dsp): SourceOps<Source> {
    SourceOps((v: Source, start: nat) => RenderSource(dsp, v, start), (v: Source) => SourceFinished(dsp, v))
  }

  /** A sample player inside the engine renders exactly as the sampler voice
      does, and stays a sample player over the same buffer. */
  lemma SampledRendersAsVoice(dsp: Dsp, p: Voice.Playable, start: nat)
    ensures var r := Ops(dsp).render(Sampled(p), start);
      && r.voice.Sampled?
      && r.voice.player == Voice.GetNextBlock(p, start).voice
      && r.out == Voice.GetNextBlock(p, start).out
      && (Ops(dsp).finished(r.voice) <==> Voice.IsFinished(p) || p.index + Voice.Emitted(start) >= |p.buffer|)
  {
  }

  /** An oscillator synth remembers where in the block it started: a block
      rendered from frame `a` moves it on `128 - a` frames, so the frames
      it has emitted plus the start frame are the same whatever the start,
      and two different start frames leave two different synths. */
  lemma SynthKeepsOffset(dsp: Dsp, k: SourceType, s: Settings, n: nat, a: nat, b: nat)
    requires a < BlockSize && b < BlockSize
    ensures var ra := Ops(dsp).render(Synth(k, s, n), a).voice;
            var rb := Ops(dsp).render(Synth(k, s, n), b).voice;
            && ra.Synth? && rb.Synth?
            && ra.frames + a == rb.frames + b == n + BlockSize
            && (ra == rb <==> a == b)
  {
  }

  /** `ScheduledEvent::set_parameter` forwards to the source: the sample
      player ignores it, an oscillator synth records it. */
  function SetSourceParameter(v: Source, par: SynthParameter, value: real): (r: Source)
    ensures r.Sampled? <==> v.Sampled?
    ensures v.Sampled? ==> r == v
    ensures v.Synth? ==> r.kind == v.kind && r.frames == v.frames && r.settings == v.settings + [(par, value)]
  {
    match v
    case Sampled(p) => Sampled(Voice.SetParameter(p, par, value))
    case Synth(k, s, n) => Synth(k, s + [(par, value)], n)
  }

  /** The state of a `Ruffbox`. */
  datatype Ruffbox = Ruffbox(buffers: seq<seq<real>>, prepared: map<nat, Scheduled<Source>>, counter: nat, engine: Engine<Source>)

  /** `block_duration = 128/44100`, `sec_per_sample = 1/44100`; late events
      start at once and offsets are rounded. */
  const SynthTiming := Timing(128.0 / 44100.0, 1.0 / 44100.0, true, true)

  /** `Ruffbox::new`. */
  function New(): Ruffbox {
    Ruffbox([], map[], 0, Empty())
  }

  /** Every prepared id was handed out before: ids below the counter. */
  ghost predicate Valid(r: Ruffbox) {
    forall id :: id in r.prepared ==> id < r.counter
  }

  /** A new instance holds no samples, no prepared instances and an idle
      engine, and satisfies the id invariant. */
  lemma NewIsIdle()
    ensures Valid(New())
    ensures |New().buffers| == 0 && New().counter == 0
    ensures New().engine.running == [] && New().engine.pending == [] && New().engine.queue == []
  {
  }

  /** `load_sample`: appends a copy of the samples and returns its index. */
  function LoadSample(r: Ruffbox, samples: seq<real>): (res: (Ruffbox, nat))
    ensures res.1 == |r.buffers| && |res.0.buffers| == |r.buffers| + 1
    ensures res.0.buffers[res.1] == samples
    ensures forall i :: 0 <= i < |r.buffers| ==> res.0.buffers[i] == r.buffers[i]
    ensures res.0.prepared == r.prepared && res.0.counter == r.counter && res.0.engine == r.engine
  {
    (r.(buffers := r.buffers + [samples]), |r.buffers|)
  }

  /** The voice `prepare_instance` creates for a source type. */
  function NewSource(kind: SourceType, buffers: seq<seq<real>>, sampleBuf: nat): Source
    requires kind == SourceType.Sampler ==> sampleBuf < |buffers| && |buffers[sampleBuf]| > 0
  {
    if kind == SourceType.Sampler then Sampled(Voice.WithBufferRef(buffers[sampleBuf]))
    else Synth(kind, [], 0)
  }

  /** `prepare_instance`: stores a new event under the next counter value
      and returns that id. The source's match has no arm for
      `LFSquareSynth`; indexing `buffers` needs a loaded sample, and the
      sampler voice a non-empty one. */
  function PrepareInstance(r: Ruffbox, kind: SourceType, timestamp: real, sampleBuf: nat): (res: (Ruffbox, nat))
    requires kind != LFSquareSynth
    requires kind == SourceType.Sampler ==> sampleBuf < |r.buffers| && |r.buffers[sampleBuf]| > 0
    ensures Valid(r) ==> Valid(res.0) && res.1 !in r.prepared
    ensures res.1 == r.counter && res.0.counter == r.counter + 1
    ensures res.0.prepared.Keys == r.prepared.Keys + {res.1}
    ensures res.0.prepared[res.1].timestamp == timestamp
    ensures forall id :: id in r.prepared && id != res.1 ==> res.0.prepared[id] == r.prepared[id]
    ensures res.0.buffers == r.buffers && res.0.engine == r.engine
  {
    var id := r.counter;
    var ev := Scheduled(timestamp, NewSource(kind, r.buffers, sampleBuf));
    (r.(prepared := r.prepared[id := ev], counter := r.counter + 1), id)
  }
  /** `prepare_instance` on any buffer number. For a sampler, a number past
      the loaded buffers panics at `self.buffers[sample_buf]`, and an empty
      buffer gives a voice that panics at `buffer[index]` when it renders.
      Both are `None` here; the other source types ignore the number. */
  function TryPrepareInstance(r: Ruffbox, kind: SourceType, timestamp: real, sampleBuf: nat): (res: Option<(Ruffbox, nat)>)
    requires kind != LFSquareSynth
    ensures res.None? <==> kind == SourceType.Sampler && (sampleBuf >= |r.buffers| || |r.buffers[sampleBuf]| == 0)
    ensures res.Some? ==> res.value.1 == r.counter && res.value.0.prepared.Keys == r.prepared.Keys + {r.counter}
  {
    if kind == SourceType.Sampler && !(sampleBuf < |r.buffers| && |r.buffers[sampleBuf]| > 0) then None
    else Some(PrepareInstance(r, kind, timestamp, sampleBuf))
  }

  /** The number `load_sample` returns prepares a sampler exactly when the
      loaded samples are not empty, and every number beyond it panics. */
  lemma LoadedSamplePrepares(r: Ruffbox, samples: seq<real>, other: nat, timestamp: real)
    requires other > |r.buffers|
    ensures var loaded := LoadSample(r, samples);
      && (TryPrepareInstance(loaded.0, SourceType.Sampler, timestamp, loaded.1).Some? <==> |samples| > 0)
      && TryPrepareInstance(loaded.0, SourceType.Sampler, timestamp, other).None?
  {
  }


  /** `set_instance_parameter`: `unwrap` on the lookup panics for an id
      that is not prepared. */
  function SetInstanceParameter(r: Ruffbox, id: nat, par: SynthParameter, value: real): (res: Ruffbox)
    requires id in r.prepared
    ensures res.prepared.Keys == r.prepared.Keys
    ensures res.prepared[id].timestamp == r.prepared[id].timestamp
    ensures res.prepared[id].source == SetSourceParameter(r.prepared[id].source, par, value)
    ensures forall other :: other in r.prepared && other != id ==> res.prepared[other] == r.prepared[other]
    ensures res.buffers == r.buffers && res.counter == r.counter && res.engine == r.engine
  {
    var ev := r.prepared[id];
    r.(prepared := r.prepared[id := Scheduled(ev.timestamp, SetSourceParameter(ev.source, par, value))])
  }

  /** `trigger`: removes the prepared event and sends it to the queue;
      `unwrap` panics for an id that is not prepared. */
  function Trigger(r: Ruffbox, id: nat): (res: Ruffbox)
    requires id in r.prepared
    ensures res.prepared.Keys == r.prepared.Keys - {id}
    ensures forall other :: other in res.prepared ==> res.prepared[other] == r.prepared[other]
    ensures res.engine.queue == r.engine.queue + [r.prepared[id]]
    ensures res.engine.running == r.engine.running && res.engine.pending == r.engine.pending
    ensures Valid(r) ==> Valid(res)
    ensures res.buffers == r.buffers && res.counter == r.counter
  {
    r.(prepared := r.prepared - {id}, engine := r.engine.(queue := r.engine.queue + [r.prepared[id]]))
  }

  /** `process(stream_time)`: one block of the engine. Buffers and prepared
      instances are untouched. */
  function ProcessBlock(r: Ruffbox, dsp: Dsp, streamTime: real): (res: (Ruffbox, Block))
    ensures res.0.buffers == r.buffers && res.0.prepared == r.prepared && res.0.counter == r.counter
    ensures res.0.engine.queue == [] && res.0.engine.now == streamTime
  {
    var o := Process(Ops(dsp), SynthTiming, r.engine, streamTime);
    (r.(engine := o.engine), o.out)
  }

  /** What one block sounds like, for any engine state. Each due event's
      source renders from its offset, the time to its timestamp in samples
      rounded; then every running source renders from frame 0: the
      unfinished old ones, those stamped 0.0 or already late, and the
      dispatched ones that did not finish (so these render twice). Frame j
      is the sum of frame j of all these blocks. */
  lemma ProcessBlockLaw(r: Ruffbox, dsp: Dsp, streamTime: real)
    ensures var e := r.engine;
      var admitted := Admit(SynthTiming, streamTime, e.queue);
      var due := SplitPending(SynthTiming, streamTime, e.pending, admitted.1).0;
      var born := RenderedAtOffsets(Ops(dsp), SynthTiming, streamTime, due);
      var run := RenderedFromStart(Ops(dsp), Retain(Ops(dsp), e.running) + admitted.0 + Retain(Ops(dsp), Voices(born)));
      var res := ProcessBlock(r, dsp, streamTime);
      && (forall j :: 0 <= j < BlockSize ==> res.1[j] == FrameSum(Outs(born), j) + FrameSum(Outs(run), j))
      && res.0.engine.running == Voices(run)
      && (forall i :: 0 <= i < |due| ==>
            born[i] == RenderSource(dsp, due[i].source, Round((due[i].timestamp - streamTime) / SynthTiming.secPerSample)))
  {
    ProcessOutputLaw(Ops(dsp), SynthTiming, r.engine, streamTime);
    var admitted := Admit(SynthTiming, streamTime, r.engine.queue);
    DueOffsets(dsp, streamTime, SplitPending(SynthTiming, streamTime, r.engine.pending, admitted.1).0);
  }

  lemma DueOffsets(dsp: Dsp, streamTime: real, due: seq<Scheduled<Source>>)
    ensures forall i :: 0 <= i < |due| ==>
      RenderedAtOffsets(Ops(dsp), SynthTiming, streamTime, due)[i] == RenderSource(dsp, due[i].source, Round((due[i].timestamp - streamTime) / SynthTiming.secPerSample))
  {
    forall i | 0 <= i < |due| ensures RenderedAtOffsets(Ops(dsp), SynthTiming, streamTime, due)[i] == RenderSource(dsp, due[i].source, Round((due[i].timestamp - streamTime) / SynthTiming.secPerSample)) {
      RenderedAtOffsetsAt(Ops(dsp), SynthTiming, streamTime, due, i);
      OffsetByPolicy(SynthTiming, due[i].timestamp, streamTime);
    }
  }

  /** Successive `process` calls at the given stream times. */
  function ProcessBlocks(r: Ruffbox, dsp: Dsp, times: seq<real>): Ruffbox {
    r.(engine := RunBlocks(ProcessStep(Ops(dsp), SynthTiming), r.engine, times))
  }

  // ---------------------------------------------------------------------
  // Laws of the instance API

  /** Preparing a sampler over the index `load_sample` returned plays the
      loaded samples from their first frame. */
  lemma LoadThenPrepare(r: Ruffbox, samples: seq<real>, timestamp: real)
    requires |samples| > 0
    ensures var loaded := LoadSample(r, samples);
      var prep := PrepareInstance(loaded.0, SourceType.Sampler, timestamp, loaded.1);
      prep.0.prepared[prep.1] == Scheduled(timestamp, Sampled(Voice.WithBufferRef(samples)))
  {
  }

  /** Preparing then triggering an instance leaves the prepared map as it
      was and sends exactly the new event to the queue. */
  lemma PrepareThenTrigger(r: Ruffbox, kind: SourceType, timestamp: real, sampleBuf: nat)
    requires Valid(r) && kind != LFSquareSynth
    requires kind == SourceType.Sampler ==> sampleBuf < |r.buffers| && |r.buffers[sampleBuf]| > 0
    ensures var prep := PrepareInstance(r, kind, timestamp, sampleBuf);
      var t := Trigger(prep.0, prep.1);
      && t.prepared == r.prepared
      && t.engine.queue == r.engine.queue + [Scheduled(timestamp, NewSource(kind, r.buffers, sampleBuf))]
  {
    var prep := PrepareInstance(r, kind, timestamp, sampleBuf);
    var t := Trigger(prep.0, prep.1);
    assert t.prepared.Keys == r.prepared.Keys;
  }

  /** Ids are handed out in order: two instances prepared one after the
      other get consecutive ids, the first being the counter before. */
  lemma PreparedIdsAreConsecutive(r: Ruffbox, k1: SourceType, k2: SourceType, ts1: real, ts2: real)
    requires k1 != LFSquareSynth && k2 != LFSquareSynth && k1 != SourceType.Sampler && k2 != SourceType.Sampler
    ensures var p1 := PrepareInstance(r, k1, ts1, 0);
      var p2 := PrepareInstance(p1.0, k2, ts2, 0);
      p1.1 == r.counter && p2.1 == r.counter + 1
  {
  }

  /** Setting a parameter on a prepared oscillator synth is seen by the
      event when it is triggered, and by no other prepared event. */
  lemma ParameterReachesTrigger(r: Ruffbox, id: nat, par: SynthParameter, value: real)
    requires id in r.prepared && r.prepared[id].source.Synth?
    ensures var t := Trigger(SetInstanceParameter(r, id, par, value), id);
      var ev := t.engine.queue[|t.engine.queue| - 1];
      && ev.timestamp == r.prepared[id].timestamp
      && ev.source.settings == r.prepared[id].source.settings + [(par, value)]
      && t.prepared == Trigger(r, id).prepared
  {
    var s := SetInstanceParameter(r, id, par, value);
    assert Trigger(s, id).prepared.Keys == Trigger(r, id).prepared.Keys;
  }

  /** The synth variant's late-event policy: an event stamped in the past
      starts at once, from frame 0; the timing constants are valid. */
  lemma LateEventStartsAtOnce(ev: Scheduled<Source>, streamTime: real)
    requires 0.0 < ev.timestamp <= streamTime
    ensures ValidTiming(SynthTiming)
    ensures GoesLive(SynthTiming, streamTime, ev)
    ensures Offset(SynthTiming, ev.timestamp, streamTime) == 0
  {
    LateEventPolicies(SynthTiming, ev, streamTime);
  }
}
