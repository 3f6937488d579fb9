/** The sampler crate's `Ruffbox` (ruffbox-sampler/src/ruffbox.rs): a sample
    store and the block engine of `Dispatch` over sampler voices, with the
    sampler timing: only timestamp 0.0 starts at once, every other event
    (late ones included) goes through the pending list, and offsets are
    truncated. */
module SamplerEngine {
  import opened Common
  import Voice
  import opened Dispatch
  import opened EngineLaws

  /** The `Source` trait of the sampler voice. */
  function Ops(): SourceOps<Voice.Playable> {
    SourceOps(
      (p: Voice.Playable, start: nat) =>
        var r := Voice.GetNextBlock(p, start);
        Rendered(r.voice, r.out),
      (p: Voice.Playable) => Voice.IsFinished(p))
  }

  /** `block_duration = 0.00290249433`, `sec_per_sample = 0.00002267573`. */
  const SamplerTiming := Timing(0.00290249433, 0.00002267573, false, false)

  datatype Ruffbox = Ruffbox(buffers: seq<seq<real>>, engine: Engine<Voice.Playable>)

  /** `Ruffbox::new`. */
  function New(): Ruffbox {
    Ruffbox([], Empty())
  }

  /** `load`: appends a copy of the samples and returns its index. */
  function Load(r: Ruffbox, samples: seq<real>): (res: (Ruffbox, nat))
    ensures res.1 == |r.buffers| && |res.0.buffers| == |r.buffers| + 1
    ensures res.0.buffers[res.1] == samples
    ensures forall i :: 0 <= i < |r.buffers| ==> res.0.buffers[i] == r.buffers[i]
    ensures res.0.engine == r.engine
  {
    (r.(buffers := r.buffers + [samples]), |r.buffers|)
  }

  /** `trigger(buffer, timestamp)`: sends a fresh sampler over the buffer to
      the queue. Indexing `buffers` needs a loaded sample, and the sampler
      voice a non-empty one. */
  function Trigger(r: Ruffbox, buffer: nat, timestamp: real): (res: Ruffbox)
    requires buffer < |r.buffers| && |r.buffers[buffer]| > 0
    ensures res.buffers == r.buffers
    ensures res.engine.running == r.engine.running && res.engine.pending == r.engine.pending
    ensures |res.engine.queue| == |r.engine.queue| + 1
    ensures res.engine.queue[..|r.engine.queue|] == r.engine.queue
    ensures var ev := res.engine.queue[|r.engine.queue|];
      && ev.timestamp == timestamp
      && ev.source.buffer == r.buffers[buffer] && ev.source.index == 0 && !Voice.IsFinished(ev.source)
  {
    var voice: Voice.Playable := Voice.WithBufferRef(r.buffers[buffer]);
    var ev := Scheduled(timestamp, voice);
    r.(engine := r.engine.(queue := r.engine.queue + [ev]))
  }
  /** `trigger` on any index. An index past the loaded buffers panics at
      `self.buffers[buffer]`; an empty buffer is queued, but its voice panics
      at `buffer[index]` in the block that dispatches it. Both are `None`
      here. */
  function TryTrigger(r: Ruffbox, buffer: nat, timestamp: real): (res: Option<Ruffbox>)
    ensures res.None? <==> buffer >= |r.buffers| || |r.buffers[buffer]| == 0
    ensures res.Some? ==>
      && res.value.buffers == r.buffers
      && res.value.engine.queue == r.engine.queue + [Scheduled(timestamp, Voice.WithBufferRef(r.buffers[buffer]))]
  {
    if buffer < |r.buffers| && |r.buffers[buffer]| > 0 then Some(Trigger(r, buffer, timestamp)) else None
  }

  /** The index `load` returns triggers exactly when the loaded samples are
      not empty, and every index beyond it panics. */
  lemma LoadedIndexTriggers(r: Ruffbox, samples: seq<real>, other: nat, timestamp: real)
    requires other > |r.buffers|
    ensures var loaded := Load(r, samples);
      && (TryTrigger(loaded.0, loaded.1, timestamp).Some? <==> |samples| > 0)
      && TryTrigger(loaded.0, other, timestamp).None?
  {
  }


  /** `process(stream_time)`: one block of the engine. */
  function ProcessBlock(r: Ruffbox, streamTime: real): (res: (Ruffbox, Block))
    ensures res.0.buffers == r.buffers
    ensures res.0.engine.queue == [] && res.0.engine.now == streamTime
  {
    var o := Process(Ops(), SamplerTiming, r.engine, streamTime);
    (r.(engine := o.engine), o.out)
  }

  /** What one block sounds like, for any engine state. Each due event's
      sampler renders from its offset, the time to its timestamp in samples
      truncated; then every running sampler renders from frame 0: the
      unfinished old ones, those stamped 0.0, and the dispatched ones that
      did not finish (so these render twice). Frame j is the sum of frame j
      of all these blocks. */
  lemma ProcessBlockLaw(r: Ruffbox, streamTime: real)
    ensures var e := r.engine;
      var admitted := Admit(SamplerTiming, streamTime, e.queue);
      var due := SplitPending(SamplerTiming, streamTime, e.pending, admitted.1).0;
      var born := RenderedAtOffsets(Ops(), SamplerTiming, streamTime, due);
      var run := RenderedFromStart(Ops(), Retain(Ops(), e.running) + admitted.0 + Retain(Ops(), Voices(born)));
      var res := ProcessBlock(r, streamTime);
      && (forall j :: 0 <= j < BlockSize ==> res.1[j] == FrameSum(Outs(born), j) + FrameSum(Outs(run), j))
      && res.0.engine.running == Voices(run)
      && (forall i :: 0 <= i < |due| ==>
            born[i].out == Voice.GetNextBlock(due[i].source, Truncate((due[i].timestamp - streamTime) / SamplerTiming.secPerSample)).out)
  {
    var o := Process(Ops(), SamplerTiming, r.engine, streamTime);
    assert ProcessBlock(r, streamTime) == (r.(engine := o.engine), o.out);
    ProcessOutputLaw(Ops(), SamplerTiming, r.engine, streamTime);
    var admitted := Admit(SamplerTiming, streamTime, r.engine.queue);
    DueOffsets(streamTime, SplitPending(SamplerTiming, streamTime, r.engine.pending, admitted.1).0);
  }

  lemma DueOffsets(streamTime: real, due: seq<Scheduled<Voice.Playable>>)
    ensures forall i :: 0 <= i < |due| ==>
      RenderedAtOffsets(Ops(), SamplerTiming, streamTime, due)[i].out == Voice.GetNextBlock(due[i].source, Truncate((due[i].timestamp - streamTime) / SamplerTiming.secPerSample)).out
  {
    forall i | 0 <= i < |due| ensures RenderedAtOffsets(Ops(), SamplerTiming, streamTime, due)[i].out == Voice.GetNextBlock(due[i].source, Truncate((due[i].timestamp - streamTime) / SamplerTiming.secPerSample)).out {
      RenderedAtOffsetsAt(Ops(), SamplerTiming, streamTime, due, i);
      OffsetByPolicy(SamplerTiming, due[i].timestamp, streamTime);
    }
  }

  /** Successive `process` calls at the given stream times. */
  function ProcessBlocks(r: Ruffbox, times: seq<real>): Ruffbox {
    r.(engine := RunBlocks(ProcessStep(Ops(), SamplerTiming), r.engine, times))
  }

  /** Triggering the index `load` returned plays the loaded samples from
      their first frame at the given time. */
  lemma LoadThenTrigger(r: Ruffbox, samples: seq<real>, timestamp: real)
    requires |samples| > 0
    ensures var loaded := Load(r, samples);
      var t := Trigger(loaded.0, loaded.1, timestamp);
      t.engine.queue == r.engine.queue + [Scheduled(timestamp, Voice.WithBufferRef(samples))]
  {
  }

  /** The sampler variant's late-event policy: an event stamped in the past
      but not 0.0 does not start at once; it goes to the pending list,
      where it is due in the current block and starts at frame 0. */
  lemma LateEventWaitsForDispatch(ev: Scheduled<Voice.Playable>, streamTime: real)
    requires 0.0 < ev.timestamp <= streamTime
    ensures ValidTiming(SamplerTiming)
    ensures !GoesLive(SamplerTiming, streamTime, ev)
    ensures ev.timestamp <= BlockEnd(SamplerTiming, streamTime)
    ensures Offset(SamplerTiming, ev.timestamp, streamTime) == 0
  {
    LateEventPolicies(SamplerTiming, ev, streamTime);
  }

  // ---------------------------------------------------------------------
  // A sample that outlasts the block it starts in

  /** A sampler voice inside the engine renders exactly as `get_next_block`
      does, and counts as finished exactly when it is. */
  lemma OpsIsVoice(p: Voice.Playable, start: nat)
    ensures Ops().render(p, start) == Rendered(Voice.GetNextBlock(p, start).voice, Voice.GetNextBlock(p, start).out)
    ensures Ops().finished(p) <==> Voice.IsFinished(p)
  {
  }

  /** The engine's finished test on a sampler voice is the voice's own. */
  lemma OpsFinishedIsVoice(p: Voice.Playable)
    ensures Ops().finished(p) <==> Voice.IsFinished(p)
  {
  }

  /** As written: a sample dispatched at frame `o > 0` of a block and longer
      than the rest of the block is also mixed in from frame 0, so the block
      sounds before the onset: frame 0 holds the sample's frame `128 - o`
      where silence was due. */
  lemma OutlastingSampleAsWritten(e: Engine<Voice.Playable>, buf: seq<real>, streamTime: real)
    requires e.running == [] && e.queue == [] && |e.pending| == 1
    requires e.pending[0].source == Voice.WithBufferRef(buf)
    requires e.pending[0].timestamp <= BlockEnd(SamplerTiming, streamTime)
    requires var o := Offset(SamplerTiming, e.pending[0].timestamp, streamTime);
      0 < o < BlockSize && |buf| > BlockSize - o
    ensures var o := Offset(SamplerTiming, e.pending[0].timestamp, streamTime);
      Process(Ops(), SamplerTiming, e, streamTime).out[0] == buf[BlockSize - o]
  {
    var o := Offset(SamplerTiming, e.pending[0].timestamp, streamTime);
    var p: Voice.Playable := e.pending[0].source;
    var first := Voice.GetNextBlock(p, o);
    OpsIsVoice(p, o);
    OpsIsVoice(first.voice, 0);
    OutlastingFirstBlock(p, o);
    AsWrittenRendersDispatchedTwice(Ops(), SamplerTiming, e, streamTime);
    DoubleRenderFrameZero(p, o);
  }

  /** The first block of a sample longer than the rest of the block: silence
      before the onset, the sample from its first frame after it, and the
      voice not finished. */
  lemma OutlastingFirstBlock(p: Voice.Playable, o: nat)
    requires p.index == 0 && !Voice.IsFinished(p) && 0 < o < BlockSize && |p.buffer| > BlockSize - o
    ensures var first := Voice.GetNextBlock(p, o);
      && !Voice.IsFinished(first.voice)
      && first.voice.index == BlockSize - o
      && (forall j :: 0 <= j < o ==> first.out[j] == 0.0)
      && (forall k :: 0 <= k < BlockSize - o ==> first.out[o + k] == p.buffer[k])
  {
    var first := Voice.GetNextBlock(p, o);
    Voice.BlockFrames(p, o);
    forall k | 0 <= k < BlockSize - o ensures first.out[o + k] == p.buffer[k] {
      assert first.out[o + k] == p.buffer[Voice.CursorAfter(p, o + k - o)];
    }
  }

  lemma OutlastsFirstBlock(p: Voice.Playable, o: nat)
    requires !Voice.IsFinished(p) && p.index == 0 && 0 < o < BlockSize && |p.buffer| > BlockSize - o
    ensures !Voice.IsFinished(Voice.GetNextBlock(p, o).voice)
  {
  }

  lemma DoubleRenderFrameZero(p: Voice.Playable, o: nat)
    requires p.index == 0 && !Voice.IsFinished(p) && 0 < o < BlockSize && |p.buffer| > BlockSize - o
    ensures var first := Voice.GetNextBlock(p, o);
      Mix(first.out, Voice.GetNextBlock(first.voice, 0).out)[0] == p.buffer[BlockSize - o]
  {
    OutlastingFirstBlock(p, o);
  }

  /** Corrected: the same sample is silent before its onset, plays from its
      first frame at the onset, and keeps running for the next block. */
  lemma OutlastingSampleCorrected(e: Engine<Voice.Playable>, buf: seq<real>, streamTime: real)
    requires e.running == [] && e.queue == [] && |e.pending| == 1
    requires e.pending[0].source == Voice.WithBufferRef(buf)
    requires e.pending[0].timestamp <= BlockEnd(SamplerTiming, streamTime)
    requires var o := Offset(SamplerTiming, e.pending[0].timestamp, streamTime);
      0 < o < BlockSize && |buf| > BlockSize - o
    ensures var o := Offset(SamplerTiming, e.pending[0].timestamp, streamTime);
      var r := ProcessCorrected(Ops(), SamplerTiming, e, streamTime);
      && r.out == Voice.GetNextBlock(e.pending[0].source, o).out
      && r.engine.running == [Voice.GetNextBlock(e.pending[0].source, o).voice]
  {
    var o := Offset(SamplerTiming, e.pending[0].timestamp, streamTime);
    var p: Voice.Playable := e.pending[0].source;
    OpsIsVoice(p, o);
    OutlastingFirstBlock(p, o);
    CorrectedRendersDispatchedOnce(Ops(), SamplerTiming, e, streamTime);
  }

  /** Corrected, the onset block and the block after it are exactly the
      voice's two consecutive blocks from the onset; `PlaysFromOnset` says
      what those hold frame by frame. */
  lemma OutlastingSamplePlaysOnce(e: Engine<Voice.Playable>, buf: seq<real>, streamTime: real, next: real)
    requires e.running == [] && e.queue == [] && |e.pending| == 1
    requires e.pending[0].source == Voice.WithBufferRef(buf)
    requires e.pending[0].timestamp <= BlockEnd(SamplerTiming, streamTime)
    requires var o := Offset(SamplerTiming, e.pending[0].timestamp, streamTime);
      0 < o < BlockSize && |buf| > BlockSize - o
    ensures var o := Offset(SamplerTiming, e.pending[0].timestamp, streamTime);
      var first := Voice.GetNextBlock(e.pending[0].source, o);
      var r1 := ProcessCorrected(Ops(), SamplerTiming, e, streamTime);
      var r2 := ProcessCorrected(Ops(), SamplerTiming, r1.engine, next);
      && r1.out == first.out
      && r2.out == Voice.GetNextBlock(first.voice, 0).out
  {
    var o := Offset(SamplerTiming, e.pending[0].timestamp, streamTime);
    var p: Voice.Playable := e.pending[0].source;
    OutlastingSampleCorrected(e, buf, streamTime);
    var r1 := ProcessCorrected(Ops(), SamplerTiming, e, streamTime);
    var first := Voice.GetNextBlock(p, o);
    OutlastsFirstBlock(p, o);
    CorrectedNextBlock(e, r1.engine, first.voice, streamTime, next);
  }

  /** The two blocks a fresh sample renders from onset `o`, as plain
      sequences: silence, the sample from its first frame, then the rest of
      the sample from where the first block stopped. */
  lemma PlaysFromOnset(p: Voice.Playable, o: nat, out1: seq<real>, out2: seq<real>)
    requires p.index == 0 && !Voice.IsFinished(p) && 0 < o < BlockSize && |p.buffer| > BlockSize - o
    requires out1 == Voice.GetNextBlock(p, o).out
    requires out2 == Voice.GetNextBlock(Voice.GetNextBlock(p, o).voice, 0).out
    ensures forall j :: 0 <= j < o ==> out1[j] == 0.0
    ensures forall k :: 0 <= k < BlockSize - o ==> out1[o + k] == p.buffer[k]
    ensures forall j :: 0 <= j < BlockSize ==> out2[j] == p.buffer[Voice.CursorAfter(p, Voice.Emitted(o) + j)]
  {
    FirstBlockFromOnset(p, o, out1);
    SecondBlockFromOnset(p, o, out2);
  }

  lemma FirstBlockFromOnset(p: Voice.Playable, o: nat, out1: seq<real>)
    requires p.index == 0 && !Voice.IsFinished(p) && 0 < o < BlockSize && |p.buffer| > BlockSize - o
    requires out1 == Voice.GetNextBlock(p, o).out
    ensures forall j :: 0 <= j < o ==> out1[j] == 0.0
    ensures forall k :: 0 <= k < BlockSize - o ==> out1[o + k] == p.buffer[k]
  {
    OutlastingFirstBlock(p, o);
  }

  lemma SecondBlockFromOnset(p: Voice.Playable, o: nat, out2: seq<real>)
    requires p.index == 0 && 0 < o < BlockSize
    requires out2 == Voice.GetNextBlock(Voice.GetNextBlock(p, o).voice, 0).out
    ensures forall j :: 0 <= j < BlockSize ==> out2[j] == p.buffer[Voice.CursorAfter(p, Voice.Emitted(o) + j)]
  {
    ContiguousFromOnset(p, o);
  }

  lemma ContiguousFromOnset(p: Voice.Playable, o: nat)
    ensures forall j :: 0 <= j < BlockSize ==>
      Voice.GetNextBlock(Voice.GetNextBlock(p, o).voice, 0).out[j] == p.buffer[Voice.CursorAfter(p, Voice.Emitted(o) + j)]
  {
    Voice.ConsecutiveBlocksAreContiguous(p, o);
  }

  lemma CorrectedNextBlock(e: Engine<Voice.Playable>, e1: Engine<Voice.Playable>, v: Voice.Playable, streamTime: real, next: real)
    requires e.queue == [] && |e.pending| == 1 && e.pending[0].timestamp <= BlockEnd(SamplerTiming, streamTime)
    requires e1 == ProcessCorrected(Ops(), SamplerTiming, e, streamTime).engine
    requires e1.running == [v] && !Voice.IsFinished(v)
    ensures ProcessCorrected(Ops(), SamplerTiming, e1, next).out == Voice.GetNextBlock(v, 0).out
  {
    assert e1.pending == [] by {
      SplitSortedPending(SamplerTiming, streamTime, e.pending);
      assert SplitDue(e.pending, BlockEnd(SamplerTiming, streamTime)).1 == [];
    }
    OpsIsVoice(v, 0);
    CorrectedContinues(Ops(), SamplerTiming, e1, next);
  }
}
