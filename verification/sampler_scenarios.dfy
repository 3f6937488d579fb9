/** The playback scenarios of the sampler crate's engine tests
    (ruffbox-sampler/src/ruffbox.rs), stated for any short samples of equal
    length rather than the two nine-frame ramps the tests use. Stream time
    advances by the test's block duration: block `k` starts at `k*dt`. */
module SamplerScenarios {
  import opened Common
  import Voice
  import opened Dispatch
  import opened EngineLaws
  import opened SamplerEngine
  import opened VoiceFrames

  // ---------------------------------------------------------------------
  // Arithmetic of the test clock

  lemma MulMono(a: real, b: real, c: real)
    requires a <= b && c >= 0.0
    ensures a * c <= b * c
  {
    assert (b - a) * c >= 0.0;
  }

  /** Every block of a run of consecutive blocks ends before `ts` when the
      last one does. */
  lemma RunEndsBefore(times: seq<real>, k0: nat, dt: real, bd: real, ts: real)
    requires dt >= 0.0 && |times| > 0
    requires forall i :: 0 <= i < |times| ==> times[i] == ((k0 + i) as real) * dt
    requires ((k0 + |times| - 1) as real) * dt + bd < ts
    ensures forall i :: 0 <= i < |times| ==> ts > times[i] + bd
  {
    forall i | 0 <= i < |times| ensures ts > times[i] + bd {
      MulMono((k0 + i) as real, (k0 + |times| - 1) as real, dt);
    }
  }

  /** The test clock: the first 100 blocks end before 0.291 s, block 100
      contains it, and an event at 0.291 s (or four sample periods later)
      starts at frame 33 (37) of block 100. */
  lemma TestClock(dt: real)
    requires dt == 0.00290249433
    ensures ValidTiming(SamplerTiming)
    ensures 99.0 * dt + SamplerTiming.blockDuration < 0.291
    ensures 0.291 + 4.0 * 0.00002267573 <= BlockEnd(SamplerTiming, 100.0 * dt)
    ensures Offset(SamplerTiming, 0.291, 100.0 * dt) == 33
    ensures Offset(SamplerTiming, 0.291 + 4.0 * 0.00002267573, 100.0 * dt) == 37
  {
  }

  /** The second event of the disjunct test, ten blocks after the first:
      the blocks up to 109 end before it, block 110 contains it, and it
      starts at frame 33 there too. */
  lemma TestClockLater(dt: real)
    requires dt == 0.00290249433
    ensures BlockEnd(SamplerTiming, 100.0 * dt) < 0.291 + 10.0 * dt
    ensures 109.0 * dt + SamplerTiming.blockDuration < 0.291 + 10.0 * dt
    ensures 0.291 + 10.0 * dt <= BlockEnd(SamplerTiming, 110.0 * dt)
    ensures Offset(SamplerTiming, 0.291 + 10.0 * dt, 110.0 * dt) == 33
  {
  }

  // ---------------------------------------------------------------------
  // Voices of the tests

  /** A fresh voice over a buffer that fits after onset `o` finishes within
      its first block, and the engine sees it so. */
  lemma FitsInBlock(p: Voice.Playable, o: nat)
    requires p.index == 0 && o + |p.buffer| <= BlockSize
    ensures Ops().finished(Ops().render(p, o).voice)
    ensures forall k :: 0 <= k < |p.buffer| ==> Ops().render(p, o).out[o + k] == p.buffer[k]
    ensures forall j :: 0 <= j < o ==> Ops().render(p, o).out[j] == 0.0
    ensures forall j :: o + |p.buffer| <= j < BlockSize ==> Ops().render(p, o).out[j] == p.buffer[|p.buffer| - 1]
  {
    OpsIsVoice(p, o);
    OpsFinishedIsVoice(Voice.GetNextBlock(p, o).voice);
    Voice.ShortBufferPlaysWithinBlock(p, o);
  }

  /** The set-up of the scheduled tests: both samples loaded into a new
      engine and triggered, in load order, at the given times. Only the two
      fresh voices wait in the queue. */
  function Triggered(s1: seq<real>, s2: seq<real>, ts1: real, ts2: real): (r: Ruffbox)
    requires |s1| > 0 && |s2| > 0
    ensures var v1: Voice.Playable := Voice.WithBufferRef(s1);
      var v2: Voice.Playable := Voice.WithBufferRef(s2);
      r.engine == Engine([], [], [Scheduled(ts1, v1), Scheduled(ts2, v2)], 0.0)
    ensures r.buffers == [s1, s2]
  {
    var l1 := Load(New(), s1);
    var l2 := Load(l1.0, s2);
    Trigger(Trigger(l2.0, l1.1, ts1), l2.1, ts2)
  }

  // ---------------------------------------------------------------------
  // The four tests

  /** The engine after an idle block and two triggers at 0.0. */
  lemma IdleThenTriggered(s1: seq<real>, s2: seq<real>, v1: Voice.Playable, v2: Voice.Playable)
    requires |s1| > 0 && |s2| > 0
    requires v1 == Voice.WithBufferRef(s1) && v2 == Voice.WithBufferRef(s2)
    ensures var l1 := Load(New(), s1);
      var l2 := Load(l1.0, s2);
      var idle := ProcessBlock(l2.0, 0.0);
      var r := Trigger(Trigger(idle.0, l1.1, 0.0), l2.1, 0.0);
      && idle.1 == Zeros(BlockSize)
      && r.engine.running == [] && r.engine.pending == []
      && r.engine.queue == [Scheduled(0.0, v1), Scheduled(0.0, v2)]
  {
    var l1 := Load(New(), s1);
    var l2 := Load(l1.0, s2);
    assert ValidTiming(SamplerTiming);
    IdleIsSilent(Ops(), SamplerTiming, l2.0.engine, 0.0);
  }

  /** The basic test's second block is the mix of the two voices' renders
      from frame 0, after a silent first block. */
  lemma BasicMix(s1: seq<real>, s2: seq<real>)
    requires 0 < |s1| && 0 < |s2|
    ensures var l1 := Load(New(), s1);
      var l2 := Load(l1.0, s2);
      var idle := ProcessBlock(l2.0, 0.0);
      var r := Trigger(Trigger(idle.0, l1.1, 0.0), l2.1, 0.0);
      && idle.1 == Zeros(BlockSize)
      && ProcessBlock(r, 0.0).1
         == Mix(Voice.GetNextBlock(Voice.WithBufferRef(s1), 0).out,
                Voice.GetNextBlock(Voice.WithBufferRef(s2), 0).out)
  {
    var v1: Voice.Playable := Voice.WithBufferRef(s1);
    var v2: Voice.Playable := Voice.WithBufferRef(s2);
    IdleThenTriggered(s1, s2, v1, v2);
    var l1 := Load(New(), s1);
    var l2 := Load(l1.0, s2);
    var r := Trigger(Trigger(ProcessBlock(l2.0, 0.0).0, l1.1, 0.0), l2.1, 0.0);
    ImmediateSamples(r.engine, v1, v2);
  }

  /** test_basic_playback: after an idle block, two samples triggered at
      0.0 both start at frame 0 of the next block and are summed. */
  lemma BasicPlayback(s1: seq<real>, s2: seq<real>)
    requires 0 < |s1| == |s2| <= BlockSize
    ensures var l1 := Load(New(), s1);
      var l2 := Load(l1.0, s2);
      var idle := ProcessBlock(l2.0, 0.0);
      var r := Trigger(Trigger(idle.0, l1.1, 0.0), l2.1, 0.0);
      var out := ProcessBlock(r, 0.0).1;
      && idle.1 == Zeros(BlockSize)
      && forall i :: 0 <= i < |s1| ==> out[i] == s1[i] + s2[i]
  {
    BasicMix(s1, s2);
    var l1 := Load(New(), s1);
    var l2 := Load(l1.0, s2);
    var r := Trigger(Trigger(ProcessBlock(l2.0, 0.0).0, l1.1, 0.0), l2.1, 0.0);
    FreshMixFrames(s1, s2, ProcessBlock(r, 0.0).1);
  }

  lemma ImmediateSamples(e: Engine<Voice.Playable>, v1: Voice.Playable, v2: Voice.Playable)
    requires e.running == [] && e.pending == [] && e.queue == [Scheduled(0.0, v1), Scheduled(0.0, v2)]
    ensures Process(Ops(), SamplerTiming, e, 0.0).out == Mix(Voice.GetNextBlock(v1, 0).out, Voice.GetNextBlock(v2, 0).out)
  {
    assert ValidTiming(SamplerTiming);
    ImmediatePair(Ops(), SamplerTiming, e, 0.0);
    OpsIsVoice(v1, 0);
    OpsIsVoice(v2, 0);
  }

  /** Two samples triggered for later times in one block: silent up to
      that block, where each starts at its own offset and they are summed. */
  lemma PairTogether(s1: seq<real>, s2: seq<real>, ts1: real, ts2: real, times: seq<real>, streamTime: real, o1: nat, o2: nat)
    requires 0 < |s1| && 0 < |s2| && |times| > 0 && times[0] >= 0.0
    requires forall i :: 0 <= i < |times| ==> ts1 > BlockEnd(SamplerTiming, times[i])
    requires ts1 <= ts2 <= BlockEnd(SamplerTiming, streamTime)
    requires o1 == Offset(SamplerTiming, ts1, streamTime) && o1 + |s1| <= BlockSize
    requires o2 == Offset(SamplerTiming, ts2, streamTime) && o2 + |s2| <= BlockSize
    ensures var r := Triggered(s1, s2, ts1, ts2);
      ProcessBlock(ProcessBlocks(r, times), streamTime).1
        == Mix(Voice.GetNextBlock(Voice.WithBufferRef(s1), o1).out,
               Voice.GetNextBlock(Voice.WithBufferRef(s2), o2).out)
  {
    var v1: Voice.Playable := Voice.WithBufferRef(s1);
    var v2: Voice.Playable := Voice.WithBufferRef(s2);
    FitsInBlock(v1, o1);
    FitsInBlock(v2, o2);
    OpsIsVoice(v1, o1);
    OpsIsVoice(v2, o2);
    PairDueTogether(Ops(), SamplerTiming, Scheduled(ts1, v1), Scheduled(ts2, v2), 0.0, times, streamTime);
  }

  /** The scheduled test's block 100 is the mix of the two voices' first
      renders from frame 33. */
  lemma ScheduledMix(s1: seq<real>, s2: seq<real>, dt: real)
    requires dt == 0.00290249433
    requires 0 < |s1| == |s2| && 33 + |s1| <= BlockSize
    ensures var r := Triggered(s1, s2, 0.291, 0.291);
      var o := Offset(SamplerTiming, 0.291, 100.0 * dt);
      && o == 33
      && ProcessBlock(ProcessBlocks(r, BlockTimes(0, 100, dt)), 100.0 * dt).1
         == Mix(Voice.GetNextBlock(Voice.WithBufferRef(s1), o).out,
                Voice.GetNextBlock(Voice.WithBufferRef(s2), o).out)
  {
    var times := BlockTimes(0, 100, dt);
    var o := Offset(SamplerTiming, 0.291, 100.0 * dt);
    TestClock(dt);
    RunEndsBefore(times, 0, dt, SamplerTiming.blockDuration, 0.291);
    PairTogether(s1, s2, 0.291, 0.291, times, 100.0 * dt, o, o);
  }

  /** test_scheduled_playback: two samples triggered for 0.291 s sound
      together from frame 33 of block 100, summed frame by frame. */
  lemma ScheduledPlayback(s1: seq<real>, s2: seq<real>, dt: real)
    requires dt == 0.00290249433
    requires 0 < |s1| == |s2| && 33 + |s1| <= BlockSize
    ensures var r := Triggered(s1, s2, 0.291, 0.291);
      var out := ProcessBlock(ProcessBlocks(r, BlockTimes(0, 100, dt)), 100.0 * dt).1;
      forall i :: 33 <= i < 33 + |s1| ==> out[i] == s1[i - 33] + s2[i - 33]
  {
    var r := Triggered(s1, s2, 0.291, 0.291);
    var out := ProcessBlock(ProcessBlocks(r, BlockTimes(0, 100, dt)), 100.0 * dt).1;
    var o := Offset(SamplerTiming, 0.291, 100.0 * dt);
    ScheduledMix(s1, s2, dt);
    TogetherFrames(s1, s2, o, out);
    TogetherFramesAt(s1, s2, o, out);
  }

  /** The overlap test's block is the mix of the two voices' first
      renders, from the offsets the engine computes: 33 and 37. */
  lemma OverlapMix(s1: seq<real>, s2: seq<real>, dt: real)
    requires dt == 0.00290249433
    requires |s1| == 9 && |s2| == 9
    ensures var ts2 := 0.291 + 4.0 * 0.00002267573;
      var r := Triggered(s1, s2, 0.291, ts2);
      var o1 := Offset(SamplerTiming, 0.291, 100.0 * dt);
      var o2 := Offset(SamplerTiming, ts2, 100.0 * dt);
      && o1 == 33 && o2 == 37
      && ProcessBlock(ProcessBlocks(r, BlockTimes(0, 100, dt)), 100.0 * dt).1
         == Mix(Voice.GetNextBlock(Voice.WithBufferRef(s1), o1).out,
                Voice.GetNextBlock(Voice.WithBufferRef(s2), o2).out)
  {
    var times := BlockTimes(0, 100, dt);
    var ts2 := 0.291 + 4.0 * 0.00002267573;
    TestClock(dt);
    RunEndsBefore(times, 0, dt, SamplerTiming.blockDuration, 0.291);
    PairTogether(s1, s2, 0.291, ts2, times, 100.0 * dt,
                 Offset(SamplerTiming, 0.291, 100.0 * dt), Offset(SamplerTiming, ts2, 100.0 * dt));
  }

  /** test_overlap_playback: the second sample, four sample periods later,
      starts at frame 37; frames 33-36 hold the first alone, 37-41 both,
      and 42-45 the second over the first's held last frame. */
  lemma OverlapPlayback(s1: seq<real>, s2: seq<real>, dt: real)
    requires dt == 0.00290249433
    requires |s1| == 9 && |s2| == 9
    ensures var r := Triggered(s1, s2, 0.291, 0.291 + 4.0 * 0.00002267573);
      var out := ProcessBlock(ProcessBlocks(r, BlockTimes(0, 100, dt)), 100.0 * dt).1;
      && (forall i :: 0 <= i < 33 ==> out[i] == 0.0)
      && (forall i :: 33 <= i < 37 ==> out[i] == s1[i - 33])
      && (forall i :: 37 <= i < 42 ==> out[i] == s1[i - 33] + s2[i - 37])
      && (forall i :: 42 <= i < 46 ==> out[i] == s1[8] + s2[i - 37])
  {
    var ts2 := 0.291 + 4.0 * 0.00002267573;
    var r := Triggered(s1, s2, 0.291, ts2);
    var out := ProcessBlock(ProcessBlocks(r, BlockTimes(0, 100, dt)), 100.0 * dt).1;
    var o1 := Offset(SamplerTiming, 0.291, 100.0 * dt);
    var o2 := Offset(SamplerTiming, ts2, 100.0 * dt);
    OverlapMix(s1, s2, dt);
    OverlapFrames(s1, s2, o1, o2, out);
    OverlapFramesAt(s1, s2, o1, o2, out);
  }

  /** The timing facts of the disjunct test in the form the engine laws
      take them: every block before 100 ends before the first event, block
      100 holds it, blocks 101 to 109 end before the second event, block 110
      holds it, and both land on frame 33. */
  lemma DisjunctClock(dt: real)
    requires dt == 0.00290249433
    ensures var before := BlockTimes(0, 100, dt);
      |before| > 0 && before[0] >= 0.0
      && forall i :: 0 <= i < |before| ==> 0.291 > BlockEnd(SamplerTiming, before[i])
    ensures 0.291 <= BlockEnd(SamplerTiming, 100.0 * dt) < 0.291 + 10.0 * dt <= BlockEnd(SamplerTiming, 110.0 * dt)
    ensures var between := BlockTimes(101, 9, dt);
      forall i :: 0 <= i < |between| ==> 0.291 + 10.0 * dt > BlockEnd(SamplerTiming, between[i])
    ensures Offset(SamplerTiming, 0.291, 100.0 * dt) == 33
    ensures Offset(SamplerTiming, 0.291 + 10.0 * dt, 110.0 * dt) == 33
  {
    TestClock(dt);
    TestClockLater(dt);
    RunEndsBefore(BlockTimes(0, 100, dt), 0, dt, SamplerTiming.blockDuration, 0.291);
    RunEndsBefore(BlockTimes(101, 9, dt), 101, dt, SamplerTiming.blockDuration, 0.291 + 10.0 * dt);
  }

  /** test_disjunct_playback: samples triggered ten blocks apart sound
      alone, each from frame 33 of its block (100 and 110). */
  lemma DisjunctPlayback(s1: seq<real>, s2: seq<real>, dt: real)
    requires dt == 0.00290249433
    requires 0 < |s1| && 0 < |s2| && 33 + |s1| <= BlockSize && 33 + |s2| <= BlockSize
    ensures var r := Triggered(s1, s2, 0.291, 0.291 + 10.0 * dt);
      var b100 := ProcessBlock(ProcessBlocks(r, BlockTimes(0, 100, dt)), 100.0 * dt);
      var b110 := ProcessBlock(ProcessBlocks(b100.0, BlockTimes(101, 9, dt)), 110.0 * dt);
      && (forall i :: 33 <= i < 33 + |s1| ==> b100.1[i] == s1[i - 33])
      && (forall i :: 33 <= i < 33 + |s2| ==> b110.1[i] == s2[i - 33])
  {
    var o1 := Offset(SamplerTiming, 0.291, 100.0 * dt);
    var o2 := Offset(SamplerTiming, 0.291 + 10.0 * dt, 110.0 * dt);
    DisjunctClock(dt);
    PairApart(s1, s2, 0.291, 0.291 + 10.0 * dt, BlockTimes(0, 100, dt), 100.0 * dt, BlockTimes(101, 9, dt), 110.0 * dt, o1, o2);
    var r := Triggered(s1, s2, 0.291, 0.291 + 10.0 * dt);
    var b100 := ProcessBlock(ProcessBlocks(r, BlockTimes(0, 100, dt)), 100.0 * dt);
    SoloFramesAt(s1, o1, b100.1);
    SoloFramesAt(s2, o2, ProcessBlock(ProcessBlocks(b100.0, BlockTimes(101, 9, dt)), 110.0 * dt).1);
  }

  /** Two samples triggered for times in different blocks, each rendered
      alone from its own offset in its own block. */
  lemma PairApart(s1: seq<real>, s2: seq<real>, ts1: real, ts2: real,
                  before: seq<real>, first: real, between: seq<real>, second: real, o1: nat, o2: nat)
    requires 0 < |s1| && 0 < |s2| && |before| > 0 && before[0] >= 0.0
    requires forall i :: 0 <= i < |before| ==> ts1 > BlockEnd(SamplerTiming, before[i])
    requires ts1 <= BlockEnd(SamplerTiming, first) < ts2 <= BlockEnd(SamplerTiming, second)
    requires forall i :: 0 <= i < |between| ==> ts2 > BlockEnd(SamplerTiming, between[i])
    requires o1 == Offset(SamplerTiming, ts1, first) && o1 + |s1| <= BlockSize
    requires o2 == Offset(SamplerTiming, ts2, second) && o2 + |s2| <= BlockSize
    ensures var r := Triggered(s1, s2, ts1, ts2);
      var b1 := ProcessBlock(ProcessBlocks(r, before), first);
      var b2 := ProcessBlock(ProcessBlocks(b1.0, between), second);
      && (forall i :: o1 <= i < o1 + |s1| ==> b1.1[i] == s1[i - o1])
      && (forall i :: o2 <= i < o2 + |s2| ==> b2.1[i] == s2[i - o2])
  {
    var v1: Voice.Playable := Voice.WithBufferRef(s1);
    var v2: Voice.Playable := Voice.WithBufferRef(s2);
    FitsInBlock(v1, o1);
    FitsInBlock(v2, o2);
    OpsIsVoice(v1, o1);
    OpsIsVoice(v2, o2);
    PairDueApart(Ops(), SamplerTiming, Scheduled(ts1, v1), Scheduled(ts2, v2), 0.0, before, first, between, second);
    var r := Triggered(s1, s2, ts1, ts2);
    var b1 := ProcessBlock(ProcessBlocks(r, before), first);
    SoloFrames(v1, o1, b1.1);
    SoloFrames(v2, o2, ProcessBlock(ProcessBlocks(b1.0, between), second).1);
  }
}
