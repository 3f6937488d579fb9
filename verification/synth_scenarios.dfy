/** The playback scenarios of the synth crate's engine tests
    (ruffbox-synth/src/ruffbox.rs): samples are loaded, a sampler instance
    is prepared over each, both are triggered, and blocks are processed.
    They are stated for any short samples of equal length rather than the
    two nine-frame ramps the tests use; stream time advances by the test's
    block duration, so block `k` starts at `k*dt`. The engine rounds
    offsets here, and the tests' onsets land on the same frames (33 and
    37) as in the sampler crate. */
module SynthScenarios {
  import opened Common
  import opened Vocabulary
  import Voice
  import opened Dispatch
  import opened EngineLaws
  import opened SynthEngine
  import Frames = VoiceFrames
  import SamplerScenarios

  // ---------------------------------------------------------------------
  // Arithmetic of the test clock

  /** The test clock under the synth timing: the first 100 blocks end
      before 0.291 s, block 100 contains it and four sample periods more,
      and the two onsets round to frames 33 and 37 of block 100. */
  lemma TestClock(dt: real)
    requires dt == 0.00290249433
    ensures ValidTiming(SynthTiming)
    ensures 99.0 * dt + SynthTiming.blockDuration < 0.291
    ensures 0.291 + 4.0 * 0.00002267573 <= BlockEnd(SynthTiming, 100.0 * dt)
    ensures Offset(SynthTiming, 0.291, 100.0 * dt) == 33
    ensures Offset(SynthTiming, 0.291 + 4.0 * 0.00002267573, 100.0 * dt) == 37
  {
  }

  /** The second event of the disjunct test, ten blocks after the first:
      it lies past block 100, the blocks up to 109 end before it, block 110
      contains it, and it starts at frame 33 there. */
  lemma TestClockLater(dt: real)
    requires dt == 0.00290249433
    ensures BlockEnd(SynthTiming, 100.0 * dt) < 0.291 + 10.0 * dt
    ensures 109.0 * dt + SynthTiming.blockDuration < 0.291 + 10.0 * dt
    ensures 0.291 + 10.0 * dt <= BlockEnd(SynthTiming, 110.0 * dt)
    ensures Offset(SynthTiming, 0.291 + 10.0 * dt, 110.0 * dt) == 33
  {
  }

  // ---------------------------------------------------------------------
  // Voices and engine states of the tests

  /** A fresh sampler source over a buffer that fits after onset `o`
      finishes within its first block, and renders as the sampler voice. */
  lemma SampledFits(dsp: Dsp, p: Voice.Playable, o: nat)
    requires p.index == 0 && o + |p.buffer| <= BlockSize
    ensures Ops(dsp).finished(Ops(dsp).render(Sampled(p), o).voice)
    ensures Ops(dsp).render(Sampled(p), o).out == Voice.GetNextBlock(p, o).out
  {
    SampledRendersAsVoice(dsp, p, o);
  }

  /** Preparing a sampler over each of two loaded buffers and triggering
      both, in order, queues the two sampler sources with their times. */
  lemma PreparedAndTriggered(r0: Ruffbox, b1: nat, b2: nat, ts1: real, ts2: real, v1: Voice.Playable, v2: Voice.Playable)
    requires b1 < |r0.buffers| && b2 < |r0.buffers| && |r0.buffers[b1]| > 0 && |r0.buffers[b2]| > 0
    requires v1 == Voice.WithBufferRef(r0.buffers[b1]) && v2 == Voice.WithBufferRef(r0.buffers[b2])
    requires r0.engine.running == [] && r0.engine.pending == [] && r0.engine.queue == []
    ensures var p1 := PrepareInstance(r0, SourceType.Sampler, ts1, b1);
      var p2 := PrepareInstance(p1.0, SourceType.Sampler, ts2, b2);
      var r := Trigger(Trigger(p2.0, p1.1), p2.1);
      r.engine == Engine([], [], [Scheduled(ts1, Sampled(v1)), Scheduled(ts2, Sampled(v2))], r0.engine.now)
  {
  }

  /** Two samples loaded into a new instance, in order. */
  lemma LoadedTwo(s1: seq<real>, s2: seq<real>)
    ensures var l1 := LoadSample(New(), s1);
      var l2 := LoadSample(l1.0, s2);
      && l1.1 == 0 && l2.1 == 1 && l2.0.buffers == [s1, s2]
      && l2.0.engine == Engine([], [], [], 0.0)
  {
  }

  /** The set-up of the scheduled tests: both samples loaded into a new
      instance, a sampler instance prepared over each at its time, and
      both triggered in order. Only the two events wait in the queue. */
  function Triggered(s1: seq<real>, s2: seq<real>, ts1: real, ts2: real): (r: Ruffbox)
    requires |s1| > 0 && |s2| > 0
    ensures r.engine == Engine([], [], [Scheduled(ts1, Sampled(Voice.WithBufferRef(s1))),
                                        Scheduled(ts2, Sampled(Voice.WithBufferRef(s2)))], 0.0)
    ensures r.buffers == [s1, s2] && r.prepared == map[] && r.counter == 2
  {
    LoadedTwo(s1, s2);
    var l1 := LoadSample(New(), s1);
    var l2 := LoadSample(l1.0, s2);
    var p1 := PrepareInstance(l2.0, SourceType.Sampler, ts1, l1.1);
    var p2 := PrepareInstance(p1.0, SourceType.Sampler, ts2, l2.1);
    PreparedAndTriggered(l2.0, l1.1, l2.1, ts1, ts2, Voice.WithBufferRef(s1), Voice.WithBufferRef(s2));
    Trigger(Trigger(p2.0, p1.1), p2.1)
  }

  // ---------------------------------------------------------------------
  // The four tests

  /** The engine of the basic test after the idle block and the triggers. */
  lemma IdleThenTriggered(dsp: Dsp, s1: seq<real>, s2: seq<real>, v1: Voice.Playable, v2: Voice.Playable)
    requires |s1| > 0 && |s2| > 0
    requires v1 == Voice.WithBufferRef(s1) && v2 == Voice.WithBufferRef(s2)
    ensures var l1 := LoadSample(New(), s1);
      var l2 := LoadSample(l1.0, s2);
      var idle := ProcessBlock(l2.0, dsp, 0.0);
      var p1 := PrepareInstance(idle.0, SourceType.Sampler, 0.0, l1.1);
      var p2 := PrepareInstance(p1.0, SourceType.Sampler, 0.0, l2.1);
      var r := Trigger(Trigger(p2.0, p1.1), p2.1);
      && idle.1 == Zeros(BlockSize)
      && r.engine.running == [] && r.engine.pending == []
      && r.engine.queue == [Scheduled(0.0, Sampled(v1)), Scheduled(0.0, Sampled(v2))]
  {
    LoadedTwo(s1, s2);
    var l1 := LoadSample(New(), s1);
    var l2 := LoadSample(l1.0, s2);
    assert ValidTiming(SynthTiming);
    IdleIsSilent(Ops(dsp), SynthTiming, l2.0.engine, 0.0);
    PreparedAndTriggered(ProcessBlock(l2.0, dsp, 0.0).0, l1.1, l2.1, 0.0, 0.0, v1, v2);
  }

  lemma ImmediateSources(dsp: Dsp, e: Engine<Source>, v1: Voice.Playable, v2: Voice.Playable)
    requires e.running == [] && e.pending == [] && e.queue == [Scheduled(0.0, Sampled(v1)), Scheduled(0.0, Sampled(v2))]
    ensures Process(Ops(dsp), SynthTiming, e, 0.0).out == Mix(Voice.GetNextBlock(v1, 0).out, Voice.GetNextBlock(v2, 0).out)
  {
    assert ValidTiming(SynthTiming);
    ImmediatePair(Ops(dsp), SynthTiming, e, 0.0);
    SampledRendersAsVoice(dsp, v1, 0);
    SampledRendersAsVoice(dsp, v2, 0);
  }

  /** The basic test's second block is the mix of the two voices'
      renders from frame 0, after a silent first block. */
  lemma BasicMix(dsp: Dsp, s1: seq<real>, s2: seq<real>)
    requires 0 < |s1| && 0 < |s2|
    ensures var l1 := LoadSample(New(), s1);
      var l2 := LoadSample(l1.0, s2);
      var idle := ProcessBlock(l2.0, dsp, 0.0);
      var p1 := PrepareInstance(idle.0, SourceType.Sampler, 0.0, l1.1);
      var p2 := PrepareInstance(p1.0, SourceType.Sampler, 0.0, l2.1);
      && idle.1 == Zeros(BlockSize)
      && ProcessBlock(Trigger(Trigger(p2.0, p1.1), p2.1), dsp, 0.0).1
         == Mix(Voice.GetNextBlock(Voice.WithBufferRef(s1), 0).out,
                Voice.GetNextBlock(Voice.WithBufferRef(s2), 0).out)
  {
    var v1: Voice.Playable := Voice.WithBufferRef(s1);
    var v2: Voice.Playable := Voice.WithBufferRef(s2);
    IdleThenTriggered(dsp, s1, s2, v1, v2);
    LoadedTwo(s1, s2);
    var l1 := LoadSample(New(), s1);
    var l2 := LoadSample(l1.0, s2);
    var p1 := PrepareInstance(ProcessBlock(l2.0, dsp, 0.0).0, SourceType.Sampler, 0.0, l1.1);
    var p2 := PrepareInstance(p1.0, SourceType.Sampler, 0.0, l2.1);
    ImmediateSources(dsp, Trigger(Trigger(p2.0, p1.1), p2.1).engine, v1, v2);
  }

  /** test_basic_playback: after an idle block, two sampler instances
      prepared and triggered at 0.0 both start at frame 0 of the next block
      and are summed. */
  lemma BasicPlayback(dsp: Dsp, s1: seq<real>, s2: seq<real>)
    requires 0 < |s1| == |s2| <= BlockSize
    ensures var l1 := LoadSample(New(), s1);
      var l2 := LoadSample(l1.0, s2);
      var idle := ProcessBlock(l2.0, dsp, 0.0);
      var p1 := PrepareInstance(idle.0, SourceType.Sampler, 0.0, l1.1);
      var p2 := PrepareInstance(p1.0, SourceType.Sampler, 0.0, l2.1);
      var out := ProcessBlock(Trigger(Trigger(p2.0, p1.1), p2.1), dsp, 0.0).1;
      && idle.1 == Zeros(BlockSize)
      && forall i :: 0 <= i < |s1| ==> out[i] == s1[i] + s2[i]
  {
    BasicMix(dsp, s1, s2);
    var l1 := LoadSample(New(), s1);
    var l2 := LoadSample(l1.0, s2);
    var p1 := PrepareInstance(ProcessBlock(l2.0, dsp, 0.0).0, SourceType.Sampler, 0.0, l1.1);
    var p2 := PrepareInstance(p1.0, SourceType.Sampler, 0.0, l2.1);
    Frames.FreshMixFrames(s1, s2, ProcessBlock(Trigger(Trigger(p2.0, p1.1), p2.1), dsp, 0.0).1);
  }

  /** Two sampler instances prepared for later times in one block: silent
      up to that block, where each starts at its own offset and they are
      summed. */
  lemma PairTogether(dsp: Dsp, s1: seq<real>, s2: seq<real>, ts1: real, ts2: real, times: seq<real>, streamTime: real, o1: nat, o2: nat)
    requires 0 < |s1| && 0 < |s2| && |times| > 0 && times[0] >= 0.0
    requires forall i :: 0 <= i < |times| ==> ts1 > BlockEnd(SynthTiming, times[i])
    requires ts1 <= ts2 <= BlockEnd(SynthTiming, streamTime)
    requires o1 == Offset(SynthTiming, ts1, streamTime) && o1 + |s1| <= BlockSize
    requires o2 == Offset(SynthTiming, ts2, streamTime) && o2 + |s2| <= BlockSize
    ensures var r := Triggered(s1, s2, ts1, ts2);
      ProcessBlock(ProcessBlocks(r, dsp, times), dsp, streamTime).1
        == Mix(Voice.GetNextBlock(Voice.WithBufferRef(s1), o1).out,
               Voice.GetNextBlock(Voice.WithBufferRef(s2), o2).out)
  {
    var v1: Voice.Playable := Voice.WithBufferRef(s1);
    var v2: Voice.Playable := Voice.WithBufferRef(s2);
    SampledFits(dsp, v1, o1);
    SampledFits(dsp, v2, o2);
    PairDueTogether(Ops(dsp), SynthTiming, Scheduled(ts1, Sampled(v1)), Scheduled(ts2, Sampled(v2)), 0.0, times, streamTime);
  }

  /** The scheduled test's block 100 is the mix of the two voices' first
      renders from frame 33. */
  lemma ScheduledMix(dsp: Dsp, s1: seq<real>, s2: seq<real>, dt: real)
    requires dt == 0.00290249433
    requires 0 < |s1| == |s2| && 33 + |s1| <= BlockSize
    ensures var r := Triggered(s1, s2, 0.291, 0.291);
      var o := Offset(SynthTiming, 0.291, 100.0 * dt);
      && o == 33
      && ProcessBlock(ProcessBlocks(r, dsp, BlockTimes(0, 100, dt)), dsp, 100.0 * dt).1
         == Mix(Voice.GetNextBlock(Voice.WithBufferRef(s1), o).out,
                Voice.GetNextBlock(Voice.WithBufferRef(s2), o).out)
  {
    var times := BlockTimes(0, 100, dt);
    var o := Offset(SynthTiming, 0.291, 100.0 * dt);
    TestClock(dt);
    SamplerScenarios.RunEndsBefore(times, 0, dt, SynthTiming.blockDuration, 0.291);
    PairTogether(dsp, s1, s2, 0.291, 0.291, times, 100.0 * dt, o, o);
  }

  /** test_scheduled_playback: two instances prepared for 0.291 s sound
      together from frame 33 of block 100, summed frame by frame. */
  lemma ScheduledPlayback(dsp: Dsp, s1: seq<real>, s2: seq<real>, dt: real)
    requires dt == 0.00290249433
    requires 0 < |s1| == |s2| && 33 + |s1| <= BlockSize
    ensures var r := Triggered(s1, s2, 0.291, 0.291);
      var out := ProcessBlock(ProcessBlocks(r, dsp, BlockTimes(0, 100, dt)), dsp, 100.0 * dt).1;
      forall i :: 33 <= i < 33 + |s1| ==> out[i] == s1[i - 33] + s2[i - 33]
  {
    var r := Triggered(s1, s2, 0.291, 0.291);
    var out := ProcessBlock(ProcessBlocks(r, dsp, BlockTimes(0, 100, dt)), dsp, 100.0 * dt).1;
    var o := Offset(SynthTiming, 0.291, 100.0 * dt);
    ScheduledMix(dsp, s1, s2, dt);
    Frames.TogetherFrames(s1, s2, o, out);
    Frames.TogetherFramesAt(s1, s2, o, out);
  }

  /** The overlap test's block is the mix of the two voices' first
      renders, from the offsets the engine computes: 33 and 37. */
  lemma OverlapMix(dsp: Dsp, s1: seq<real>, s2: seq<real>, dt: real)
    requires dt == 0.00290249433
    requires |s1| == 9 && |s2| == 9
    ensures var ts2 := 0.291 + 4.0 * 0.00002267573;
      var r := Triggered(s1, s2, 0.291, ts2);
      var o1 := Offset(SynthTiming, 0.291, 100.0 * dt);
      var o2 := Offset(SynthTiming, ts2, 100.0 * dt);
      && o1 == 33 && o2 == 37
      && ProcessBlock(ProcessBlocks(r, dsp, BlockTimes(0, 100, dt)), dsp, 100.0 * dt).1
         == Mix(Voice.GetNextBlock(Voice.WithBufferRef(s1), o1).out,
                Voice.GetNextBlock(Voice.WithBufferRef(s2), o2).out)
  {
    var times := BlockTimes(0, 100, dt);
    var ts2 := 0.291 + 4.0 * 0.00002267573;
    TestClock(dt);
    SamplerScenarios.RunEndsBefore(times, 0, dt, SynthTiming.blockDuration, 0.291);
    PairTogether(dsp, s1, s2, 0.291, ts2, times, 100.0 * dt,
                 Offset(SynthTiming, 0.291, 100.0 * dt), Offset(SynthTiming, ts2, 100.0 * dt));
  }

  /** test_overlap_playback: the second instance, four sample periods
      later, starts at frame 37; frames 33-36 hold the first alone, 37-41
      both, and 42-45 the second over the first's held last frame. */
  lemma OverlapPlayback(dsp: Dsp, s1: seq<real>, s2: seq<real>, dt: real)
    requires dt == 0.00290249433
    requires |s1| == 9 && |s2| == 9
    ensures var r := Triggered(s1, s2, 0.291, 0.291 + 4.0 * 0.00002267573);
      var out := ProcessBlock(ProcessBlocks(r, dsp, BlockTimes(0, 100, dt)), dsp, 100.0 * dt).1;
      && (forall i :: 0 <= i < 33 ==> out[i] == 0.0)
      && (forall i :: 33 <= i < 37 ==> out[i] == s1[i - 33])
      && (forall i :: 37 <= i < 42 ==> out[i] == s1[i - 33] + s2[i - 37])
      && (forall i :: 42 <= i < 46 ==> out[i] == s1[8] + s2[i - 37])
  {
    var ts2 := 0.291 + 4.0 * 0.00002267573;
    var r := Triggered(s1, s2, 0.291, ts2);
    var out := ProcessBlock(ProcessBlocks(r, dsp, BlockTimes(0, 100, dt)), dsp, 100.0 * dt).1;
    var o1 := Offset(SynthTiming, 0.291, 100.0 * dt);
    var o2 := Offset(SynthTiming, ts2, 100.0 * dt);
    OverlapMix(dsp, s1, s2, dt);
    Frames.OverlapFrames(s1, s2, o1, o2, out);
    Frames.OverlapFramesAt(s1, s2, o1, o2, out);
  }

  /** Two sampler instances prepared for times in different blocks, each
      rendered alone from its own offset in its own block. */
  lemma PairApart(dsp: Dsp, s1: seq<real>, s2: seq<real>, ts1: real, ts2: real,
                  before: seq<real>, first: real, between: seq<real>, second: real, o1: nat, o2: nat)
    requires 0 < |s1| && 0 < |s2| && |before| > 0 && before[0] >= 0.0
    requires forall i :: 0 <= i < |before| ==> ts1 > BlockEnd(SynthTiming, before[i])
    requires ts1 <= BlockEnd(SynthTiming, first) < ts2 <= BlockEnd(SynthTiming, second)
    requires forall i :: 0 <= i < |between| ==> ts2 > BlockEnd(SynthTiming, between[i])
    requires o1 == Offset(SynthTiming, ts1, first) && o1 + |s1| <= BlockSize
    requires o2 == Offset(SynthTiming, ts2, second) && o2 + |s2| <= BlockSize
    ensures var r := Triggered(s1, s2, ts1, ts2);
      var b1 := ProcessBlock(ProcessBlocks(r, dsp, before), dsp, first);
      var b2 := ProcessBlock(ProcessBlocks(b1.0, dsp, between), dsp, second);
      && (forall i :: o1 <= i < o1 + |s1| ==> b1.1[i] == s1[i - o1])
      && (forall i :: o2 <= i < o2 + |s2| ==> b2.1[i] == s2[i - o2])
  {
    var v1: Voice.Playable := Voice.WithBufferRef(s1);
    var v2: Voice.Playable := Voice.WithBufferRef(s2);
    SampledFits(dsp, v1, o1);
    SampledFits(dsp, v2, o2);
    PairDueApart(Ops(dsp), SynthTiming, Scheduled(ts1, Sampled(v1)), Scheduled(ts2, Sampled(v2)), 0.0, before, first, between, second);
    var r := Triggered(s1, s2, ts1, ts2);
    var b1 := ProcessBlock(ProcessBlocks(r, dsp, before), dsp, first);
    Frames.SoloFrames(v1, o1, b1.1);
    Frames.SoloFrames(v2, o2, ProcessBlock(ProcessBlocks(b1.0, dsp, between), dsp, second).1);
  }

  /** The timing facts of the disjunct test in the form the engine laws
      take them: every block before 100 ends before the first event, block
      100 holds it, blocks 101 to 109 end before the second event, block 110
      holds it, and both land on frame 33. */
  lemma DisjunctClock(dt: real)
    requires dt == 0.00290249433
    ensures ValidTiming(SynthTiming)
    ensures var before := BlockTimes(0, 100, dt);
      |before| > 0 && before[0] >= 0.0
      && forall i :: 0 <= i < |before| ==> 0.291 > BlockEnd(SynthTiming, before[i])
    ensures 0.291 <= BlockEnd(SynthTiming, 100.0 * dt) < 0.291 + 10.0 * dt <= BlockEnd(SynthTiming, 110.0 * dt)
    ensures var between := BlockTimes(101, 9, dt);
      forall i :: 0 <= i < |between| ==> 0.291 + 10.0 * dt > BlockEnd(SynthTiming, between[i])
    ensures Offset(SynthTiming, 0.291, 100.0 * dt) == 33
    ensures Offset(SynthTiming, 0.291 + 10.0 * dt, 110.0 * dt) == 33
  {
    TestClock(dt);
    TestClockLater(dt);
    SamplerScenarios.RunEndsBefore(BlockTimes(0, 100, dt), 0, dt, SynthTiming.blockDuration, 0.291);
    SamplerScenarios.RunEndsBefore(BlockTimes(101, 9, dt), 101, dt, SynthTiming.blockDuration, 0.291 + 10.0 * dt);
  }

  /** test_disjunct_playback: instances prepared ten blocks apart sound
      alone, each from frame 33 of its block (100 and 110). */
  lemma DisjunctPlayback(dsp: Dsp, s1: seq<real>, s2: seq<real>, dt: real)
    requires dt == 0.00290249433
    requires 0 < |s1| && 0 < |s2| && 33 + |s1| <= BlockSize && 33 + |s2| <= BlockSize
    ensures var r := Triggered(s1, s2, 0.291, 0.291 + 10.0 * dt);
      var b100 := ProcessBlock(ProcessBlocks(r, dsp, BlockTimes(0, 100, dt)), dsp, 100.0 * dt);
      var b110 := ProcessBlock(ProcessBlocks(b100.0, dsp, BlockTimes(101, 9, dt)), dsp, 110.0 * dt);
      && (forall i :: 33 <= i < 33 + |s1| ==> b100.1[i] == s1[i - 33])
      && (forall i :: 33 <= i < 33 + |s2| ==> b110.1[i] == s2[i - 33])
  {
    var o1 := Offset(SynthTiming, 0.291, 100.0 * dt);
    var o2 := Offset(SynthTiming, 0.291 + 10.0 * dt, 110.0 * dt);
    DisjunctClock(dt);
    PairApart(dsp, s1, s2, 0.291, 0.291 + 10.0 * dt, BlockTimes(0, 100, dt), 100.0 * dt, BlockTimes(101, 9, dt), 110.0 * dt, o1, o2);
    var r := Triggered(s1, s2, 0.291, 0.291 + 10.0 * dt);
    var b100 := ProcessBlock(ProcessBlocks(r, dsp, BlockTimes(0, 100, dt)), dsp, 100.0 * dt);
    Frames.SoloFramesAt(s1, o1, b100.1);
    Frames.SoloFramesAt(s2, o2, ProcessBlock(ProcessBlocks(b100.0, dsp, BlockTimes(101, 9, dt)), dsp, 110.0 * dt).1);
  }
}
