/** The first, unscheduled engine (src/ruffbox.rs): a sample store and a
    list of running sampler voices. `trigger` queues a fresh voice, and the
    next `process` call drops finished voices, admits the queue and renders
    every voice from frame 0 of the block; there are no timestamps. */
module PlainEngine {
  import opened Common
  import Voice
  import opened Dispatch
  import SamplerEngine

  datatype Ruffbox = Ruffbox(running: seq<Voice.Playable>, buffers: seq<seq<real>>, queue: seq<Voice.Playable>)

  /** `Ruffbox::new`: nothing loaded, nothing running, nothing queued. */
  function New(): (r: Ruffbox)
    ensures r.running == [] && r.buffers == [] && r.queue == []
  {
    Ruffbox([], [], [])
  }

  /** `load`: appends a copy of the samples and returns its index. */
  function Load(r: Ruffbox, samples: seq<real>): (res: (Ruffbox, nat))
    ensures res.1 == |r.buffers| && |res.0.buffers| == |r.buffers| + 1
    ensures res.0.buffers[res.1] == samples
    ensures forall i :: 0 <= i < |r.buffers| ==> res.0.buffers[i] == r.buffers[i]
    ensures res.0.running == r.running && res.0.queue == r.queue
  {
    (r.(buffers := r.buffers + [samples]), |r.buffers|)
  }

  /** `trigger(temp)`: sends a fresh sampler over buffer `temp` down the
      channel. Indexing `buffers` needs a loaded sample, and the sampler
      voice a non-empty one. */
  function Trigger(r: Ruffbox, temp: nat): (res: Ruffbox)
    requires temp < |r.buffers| && |r.buffers[temp]| > 0
    ensures res.running == r.running && res.buffers == r.buffers
    ensures res.queue == r.queue + [Voice.WithBufferRef(r.buffers[temp])]
  {
    var voice: Voice.Playable := Voice.WithBufferRef(r.buffers[temp]);
    r.(queue := r.queue + [voice])
  }
  /** `trigger` on any index. An index past the loaded buffers panics at
      `self.buffers[temp]`; an empty buffer is queued, but its voice panics
      at `buffer[index]` in the next `process`. Both are `None` here. */
  function TryTrigger(r: Ruffbox, temp: nat): (res: Option<Ruffbox>)
    ensures res.None? <==> temp >= |r.buffers| || |r.buffers[temp]| == 0
    ensures res.Some? ==>
      && res.value.running == r.running && res.value.buffers == r.buffers
      && res.value.queue == r.queue + [Voice.WithBufferRef(r.buffers[temp])]
  {
    if temp < |r.buffers| && |r.buffers[temp]| > 0 then Some(Trigger(r, temp)) else None
  }

  /** The index `load` returns triggers exactly when the loaded samples are
      not empty, and every index beyond it panics. */
  lemma LoadedIndexTriggers(r: Ruffbox, samples: seq<real>, other: nat)
    requires other > |r.buffers|
    ensures var loaded := Load(r, samples);
      && (TryTrigger(loaded.0, loaded.1).Some? <==> |samples| > 0)
      && TryTrigger(loaded.0, other).None?
  {
  }


  /** The voices a `process` call renders: the unfinished running ones, in
      place, followed by the queued ones in the order they were sent. */
  function Live(r: Ruffbox): seq<Voice.Playable> {
    Retain(SamplerEngine.Ops(), r.running) + r.queue
  }

  /** `process()`: drop finished voices, admit the queue, and add one block
      of every voice, each rendered from frame 0, onto silence. */
  function Process(r: Ruffbox): (res: (Ruffbox, Block))
    ensures res.0.buffers == r.buffers && res.0.queue == []
  {
    var rendered := RenderRunning(SamplerEngine.Ops(), Live(r));
    (Ruffbox(rendered.1, r.buffers, []), SumBlocks(rendered.0))
  }

  /** Reference mix over voices, where `FrameSum` sums blocks already
      rendered: frame `j` of the output is the sum, over the voices, of
      frame `j` of the block each voice renders from frame 0. */
  ghost function VoicesFrameSum(vs: seq<Voice.Playable>, j: nat): real
    requires j < BlockSize
  {
    if |vs| == 0 then 0.0
    else VoicesFrameSum(vs[..|vs| - 1], j) + Voice.GetNextBlock(vs[|vs| - 1], 0).out[j]
  }

  /** Every live voice renders exactly one block from frame 0 and is
      replaced, in its place, by its advanced self; the output is the
      frame-wise sum of those blocks. */
  lemma ProcessLaw(r: Ruffbox)
    ensures var res := Process(r);
      && |res.0.running| == |Live(r)|
      && (forall i :: 0 <= i < |Live(r)| ==> res.0.running[i] == Voice.GetNextBlock(Live(r)[i], 0).voice)
      && (forall j :: 0 <= j < BlockSize ==> res.1[j] == VoicesFrameSum(Live(r), j))
  {
    var ops := SamplerEngine.Ops();
    var live := Live(r);
    RenderRunningLaw(ops, live);
    var rendered := RenderRunning(ops, live);
    forall i | 0 <= i < |live| ensures rendered.1[i] == Voice.GetNextBlock(live[i], 0).voice {
      SamplerEngine.OpsIsVoice(live[i], 0);
    }
    forall j | 0 <= j < BlockSize ensures SumBlocks(rendered.0)[j] == VoicesFrameSum(live, j) {
      RenderedSum(live, j);
    }
  }

  lemma {:induction false} RenderedSum(vs: seq<Voice.Playable>, j: nat)
    requires j < BlockSize
    ensures SumBlocks(RenderRunning(SamplerEngine.Ops(), vs).0)[j] == VoicesFrameSum(vs, j)
  {
    var ops := SamplerEngine.Ops();
    if |vs| > 0 {
      var front := vs[..|vs| - 1];
      RenderedSum(front, j);
      var bs := RenderRunning(ops, vs).0;
      var last := ops.render(vs[|vs| - 1], 0);
      assert bs == RenderRunning(ops, front).0 + [last.out];
      assert bs[..|bs| - 1] == RenderRunning(ops, front).0;
      SamplerEngine.OpsIsVoice(vs[|vs| - 1], 0);
    }
  }

  /** Finished voices never sound again: with every running voice finished
      and nothing queued, `process` is silent and empties the list. */
  lemma FinishedVoicesAreDropped(r: Ruffbox)
    requires forall i :: 0 <= i < |r.running| ==> Voice.IsFinished(r.running[i])
    requires r.queue == []
    ensures Process(r).1 == Zeros(BlockSize) && Process(r).0.running == []
  {
    var ops := SamplerEngine.Ops();
    forall i | 0 <= i < |r.running| ensures ops.finished(r.running[i]) {
      SamplerEngine.OpsFinishedIsVoice(r.running[i]);
    }
    RetainDropsFinished(ops, r.running);
    assert Live(r) == [];
    SumBlocksSingle(Zeros(BlockSize));
  }

  lemma LoneFinishedIsDropped(r: Ruffbox, x: Voice.Playable)
    requires r.queue == [] && r.running == [x] && Voice.IsFinished(x)
    ensures Process(r).1 == Zeros(BlockSize) && Process(r).0.running == []
  {
    FinishedVoicesAreDropped(r);
  }

  /** With a single live voice, `process` outputs exactly that voice's block
      and keeps exactly its advanced self. */
  lemma OneLiveVoice(r: Ruffbox, v: Voice.Playable)
    requires Live(r) == [v]
    ensures Process(r).1 == Voice.GetNextBlock(v, 0).out
    ensures Process(r).0.running == [Voice.GetNextBlock(v, 0).voice]
  {
    var ops := SamplerEngine.Ops();
    var rendered := RenderRunning(ops, [v]);
    RenderRunningLaw(ops, [v]);
    SamplerEngine.OpsIsVoice(v, 0);
    assert rendered.0 == [Voice.GetNextBlock(v, 0).out];
    assert rendered.1 == [Voice.GetNextBlock(v, 0).voice];
    SumBlocksSingle(Voice.GetNextBlock(v, 0).out);
  }

  /** The voice `trigger` queues after `load`. */
  lemma TriggeredVoice(samples: seq<real>, v: Voice.Playable)
    requires |samples| > 0 && v == Voice.WithBufferRef(samples)
    ensures var loaded := Load(New(), samples);
      Live(Trigger(loaded.0, loaded.1)) == [v]
  {
  }

  /** A one-shot sample no longer than a block: the `process` call after
      `trigger` plays it from frame 0 to its end and then holds its last
      element; the call after that is silent and leaves nothing running. */
  lemma ShortSampleSoundsForOneBlock(samples: seq<real>)
    requires 0 < |samples| <= BlockSize
    ensures var loaded := Load(New(), samples);
      var r1 := Process(Trigger(loaded.0, loaded.1));
      var r2 := Process(r1.0);
      && (forall k :: 0 <= k < |samples| ==> r1.1[k] == samples[k])
      && (forall k :: |samples| <= k < BlockSize ==> r1.1[k] == samples[|samples| - 1])
      && r2.1 == Zeros(BlockSize) && r2.0.running == []
  {
    var v: Voice.Playable := Voice.WithBufferRef(samples);
    TriggeredVoice(samples, v);
    var loaded := Load(New(), samples);
    ShortVoiceRun(Trigger(loaded.0, loaded.1), v);
  }

  lemma ShortVoiceRun(t: Ruffbox, v: Voice.Playable)
    requires Live(t) == [v] && v.index == 0 && |v.buffer| <= BlockSize
    ensures var r1 := Process(t);
      var r2 := Process(r1.0);
      && (forall k :: 0 <= k < |v.buffer| ==> r1.1[k] == v.buffer[k])
      && (forall k :: |v.buffer| <= k < BlockSize ==> r1.1[k] == v.buffer[|v.buffer| - 1])
      && r2.1 == Zeros(BlockSize) && r2.0.running == []
  {
    OneLiveVoice(t, v);
    Voice.ShortBufferPlaysWithinBlock(v, 0);
    LoneFinishedIsDropped(Process(t).0, Voice.GetNextBlock(v, 0).voice);
  }

  /** Two `process` calls on a sample longer than a block play it
      contiguously: the second block starts where the first stopped. */
  lemma LongSamplePlaysContiguously(samples: seq<real>)
    requires |samples| > BlockSize
    ensures var loaded := Load(New(), samples);
      var r1 := Process(Trigger(loaded.0, loaded.1));
      var r2 := Process(r1.0);
      && (forall k :: 0 <= k < BlockSize ==> r1.1[k] == samples[k])
      && (forall k :: 0 <= k < |samples| - BlockSize && k < BlockSize ==> r2.1[k] == samples[BlockSize + k])
  {
    var v: Voice.Playable := Voice.WithBufferRef(samples);
    TriggeredVoice(samples, v);
    var loaded := Load(New(), samples);
    LongVoiceRun(Trigger(loaded.0, loaded.1), v);
  }

  lemma LongVoiceRun(t: Ruffbox, v: Voice.Playable)
    requires Live(t) == [v] && v.index == 0 && !Voice.IsFinished(v) && |v.buffer| > BlockSize
    ensures var r1 := Process(t);
      var r2 := Process(r1.0);
      && (forall k :: 0 <= k < BlockSize ==> r1.1[k] == v.buffer[k])
      && (forall k :: 0 <= k < |v.buffer| - BlockSize && k < BlockSize ==> r2.1[k] == v.buffer[BlockSize + k])
  {
    OneLiveVoice(t, v);
    var first := Voice.GetNextBlock(v, 0);
    OutlastsFirstBlock(v);
    UnfinishedStaysLive(Process(t).0, first.voice);
    OneLiveVoice(Process(t).0, first.voice);
    PlaysTwoBlocks(v);
  }

  /** A lone unfinished running voice stays live for the next block. */
  lemma UnfinishedStaysLive(r: Ruffbox, next: Voice.Playable)
    requires r.queue == [] && r.running == [next] && !Voice.IsFinished(next)
    ensures Live(r) == [next]
  {
    SamplerEngine.OpsFinishedIsVoice(next);
    forall i | 0 <= i < |r.running| ensures !SamplerEngine.Ops().finished(r.running[i]) {
      assert r.running[i] == next;
    }
    RetainKeepsUnfinished(SamplerEngine.Ops(), r.running);
  }

  /** A fresh voice over more than a block of samples is still sounding
      after its first block. */
  lemma OutlastsFirstBlock(v: Voice.Playable)
    requires v.index == 0 && !Voice.IsFinished(v) && |v.buffer| > BlockSize
    ensures !Voice.IsFinished(Voice.GetNextBlock(v, 0).voice)
  {
  }

  /** The first two blocks of a fresh voice over more than a block of
      samples, from frame 0: the first `BlockSize` samples, then the ones
      after them. */
  lemma PlaysTwoBlocks(v: Voice.Playable)
    requires v.index == 0 && |v.buffer| > BlockSize
    ensures forall k :: 0 <= k < BlockSize ==> Voice.GetNextBlock(v, 0).out[k] == v.buffer[k]
    ensures forall k :: 0 <= k < |v.buffer| - BlockSize && k < BlockSize ==>
            Voice.GetNextBlock(Voice.GetNextBlock(v, 0).voice, 0).out[k] == v.buffer[BlockSize + k]
  {
    FirstBlockFromStart(v);
    SecondBlockFromStart(v);
  }

  lemma FirstBlockFromStart(v: Voice.Playable)
    requires v.index == 0 && |v.buffer| > BlockSize
    ensures forall k :: 0 <= k < BlockSize ==> Voice.GetNextBlock(v, 0).out[k] == v.buffer[k]
  {
    Voice.BlockFrames(v, 0);
  }

  lemma SecondBlockFromStart(v: Voice.Playable)
    requires v.index == 0 && |v.buffer| > BlockSize
    ensures forall k :: 0 <= k < |v.buffer| - BlockSize && k < BlockSize ==>
            Voice.GetNextBlock(Voice.GetNextBlock(v, 0).voice, 0).out[k] == v.buffer[BlockSize + k]
  {
    var first := Voice.GetNextBlock(v, 0);
    assert first.voice.index == BlockSize;
    Voice.SecondBlockContinues(v, first.voice, BlockSize);
  }
}
