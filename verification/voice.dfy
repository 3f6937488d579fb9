/** The sampler voice: a playback cursor over a sample buffer. The three
    copies in the repository (ruffbox-sampler/src/ruffbox/sampler.rs,
    ruffbox-synth/src/ruffbox/synth/sampler.rs and src/ruffbox/sampler.rs)
    share the same cursor logic, modelled once here. */
module Voice {
  import opened Common

  datatype SourceState = Fresh | Finished

  datatype Sampler = Sampler(index: nat, buffer: seq<real>, state: SourceState)

  /** A sampler whose cursor lies inside its buffer. `get_next_block` reads
      `buffer[index]` unguarded, so only such samplers can render. */
  type Playable = s: Sampler | s.index < |s.buffer| witness Sampler(0, [0.0], Fresh)

  /** The result of rendering one block: the advanced voice and its output. */
  datatype Rendered = Rendered(voice: Playable, out: seq<real>)

  /** `Sampler::with_buffer_ref`: a fresh cursor at the start of `buf`. */
  function WithBufferRef(buf: seq<real>): (s: Sampler)
    ensures s.index == 0 && s.state == Fresh && s.buffer == buf
    ensures |buf| > 0 ==> s.index < |s.buffer|
  {
    Sampler(0, buf, Fresh)
  }

  /** `Source::finish`: marks the voice finished and leaves the cursor alone. */
  function Finish(s: Playable): (r: Playable)
    ensures IsFinished(r)
    ensures r.index == s.index && r.buffer == s.buffer
  {
    s.(state := Finished)
  }

  predicate IsFinished(s: Sampler) {
    s.state == Finished
  }

  /** `Source::set_parameter` of the synth crate's sampler: a stub. */
  function SetParameter<P>(s: Playable, par: P, value: real): (r: Playable)
  {
    s
  }

  /** Frames a block started at `start` writes: `start..128` is empty when
      `start >= 128`. */
  function Emitted(start: nat): nat {
    if start >= BlockSize then 0 else BlockSize - start
  }

  /** Where the cursor lands after emitting `n` more frames: it advances
      once per frame but never beyond the last element. */
  function CursorAfter(s: Playable, n: nat): (i: nat)
    ensures i < |s.buffer|
  {
    Min(s.index + n, |s.buffer| - 1)
  }

  /** The loop of `get_next_block` from position `i` to the end of the block.
      Each step emits `buffer[index]`, then advances the cursor if a next
      element exists and otherwise marks the voice finished. */
  function RenderFrom(s: Playable, i: nat): (r: Rendered)
    requires i <= BlockSize
    decreases BlockSize - i
    ensures |r.out| == BlockSize - i
    ensures r.voice.buffer == s.buffer
    ensures r.voice.index == CursorAfter(s, BlockSize - i)
    ensures r.voice.state == (if s.index + (BlockSize - i) >= |s.buffer| then Finished else s.state)
  {
    if i == BlockSize then Rendered(s, [])
    else
      var frame := s.buffer[s.index];
      var next: Playable := if s.index + 1 < |s.buffer| then s.(index := s.index + 1) else s.(state := Finished);
      var rest := RenderFrom(next, i + 1);
      Rendered(rest.voice, [frame] + rest.out)
  }

  /** `get_next_block(start)`: silence before `start`, then the buffer read
      from the cursor, holding the last element once it is reached; the
      voice becomes finished exactly when the last element is emitted. */
  function GetNextBlock(s: Playable, start: nat): (r: Rendered)
    ensures |r.out| == BlockSize
    ensures r.voice.buffer == s.buffer
    ensures r.voice.index == CursorAfter(s, Emitted(start))
    ensures IsFinished(r.voice) <==> IsFinished(s) || s.index + Emitted(start) >= |s.buffer|
  {
    if start >= BlockSize then Rendered(s, Zeros(BlockSize))
    else
      var tail := RenderFrom(s, start);
      Rendered(tail.voice, Zeros(start) + tail.out)
  }

  /** Frame `k` of the loop's output is the buffer element under the
      cursor after `k` frames. */
  lemma {:induction false} RenderFromFrames(s: Playable, i: nat)
    requires i <= BlockSize
    decreases BlockSize - i
    ensures var r := RenderFrom(s, i);
      forall k :: 0 <= k < |r.out| ==> r.out[k] == s.buffer[CursorAfter(s, k)]
  {
    if i < BlockSize {
      var next: Playable := if s.index + 1 < |s.buffer| then s.(index := s.index + 1) else s.(state := Finished);
      RenderFromFrames(next, i + 1);
      var r := RenderFrom(s, i);
      var rest := RenderFrom(next, i + 1);
      assert r.out == [s.buffer[s.index]] + rest.out;
      forall k | 0 <= k < |r.out| ensures r.out[k] == s.buffer[CursorAfter(s, k)] {
        if k == 0 {
          assert CursorAfter(s, 0) == s.index;
        } else {
          assert r.out[k] == rest.out[k - 1];
          assert CursorAfter(next, k - 1) == CursorAfter(s, k);
        }
      }
    }
  }

  /** The frames of one block: silence before `start`, then the buffer read
      from the cursor, holding its last element once reached. */
  lemma BlockFrames(s: Playable, start: nat)
    ensures var r := GetNextBlock(s, start);
      && (forall i :: 0 <= i < start && i < BlockSize ==> r.out[i] == 0.0)
      && (forall i :: start <= i < BlockSize ==> r.out[i] == s.buffer[CursorAfter(s, i - start)])
  {
    if start < BlockSize {
      RenderFromFrames(s, start);
    }
  }

  /** Once finished, a voice stays finished: no block brings it back to Fresh. */
  lemma FinishedIsAbsorbing(s: Playable, start: nat)
    requires IsFinished(s)
    ensures IsFinished(GetNextBlock(s, start).voice)
  {
  }

  /** Two consecutive blocks play the buffer contiguously: the second block,
      rendered from offset 0, continues exactly where the first stopped. */
  lemma ConsecutiveBlocksAreContiguous(s: Playable, start: nat)
    ensures var second := GetNextBlock(GetNextBlock(s, start).voice, 0);
      forall j :: 0 <= j < BlockSize ==>
        second.out[j] == s.buffer[CursorAfter(s, Emitted(start) + j)]
  {
    var first := GetNextBlock(s, start);
    SecondBlockContinues(s, first.voice, Emitted(start));
  }

  lemma SecondBlockContinues(s: Playable, t: Playable, n: nat)
    requires t.buffer == s.buffer && t.index == CursorAfter(s, n)
    ensures forall j :: 0 <= j < BlockSize ==>
      GetNextBlock(t, 0).out[j] == s.buffer[CursorAfter(s, n + j)]
  {
    var second := GetNextBlock(t, 0);
    BlockFrames(t, 0);
    forall j | 0 <= j < BlockSize
      ensures second.out[j] == s.buffer[CursorAfter(s, n + j)]
    {
      assert second.out[j] == t.buffer[CursorAfter(t, j - 0)];
      CursorComposes(s, t, n, j);
    }
  }

  lemma CursorComposes(s: Playable, t: Playable, n: nat, j: nat)
    requires t.buffer == s.buffer && t.index == CursorAfter(s, n)
    ensures CursorAfter(t, j) == CursorAfter(s, n + j)
  {
  }

  /** A buffer shorter than the rest of the block is played out entirely
      within it: every element appears once, in order, from `start` on,
      and the voice reports finished. */
  lemma ShortBufferPlaysWithinBlock(s: Playable, start: nat)
    requires s.index == 0 && start + |s.buffer| <= BlockSize
    ensures var r := GetNextBlock(s, start);
      && IsFinished(r.voice)
      && (forall k :: 0 <= k < |s.buffer| ==> r.out[start + k] == s.buffer[k])
      && (forall i :: start + |s.buffer| <= i < BlockSize ==> r.out[i] == s.buffer[|s.buffer| - 1])
  {
    BlockFrames(s, start);
  }

  /** The synth crate's `set_parameter` stub changes nothing a block shows. */
  lemma SetParameterIsInert<P>(s: Playable, par: P, value: real, start: nat)
    ensures GetNextBlock(SetParameter(s, par, value), start) == GetNextBlock(s, start)
  {
  }
}
