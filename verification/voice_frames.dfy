/** What a block holds when one or two short voices, started fresh at
    given onsets, are rendered and mixed: the frame-wise facts the engine
    tests check, independent of any engine. */
module VoiceFrames {
  import opened Common
  import Voice

  /** One short voice from its onset: silence before, the buffer, then its
      last frame held to the end of the block. */
  lemma SoloFrames(v: Voice.Playable, o: nat, out: seq<real>)
    requires v.index == 0 && o + |v.buffer| <= BlockSize
    requires out == Voice.GetNextBlock(v, o).out
    ensures |out| == BlockSize
    ensures forall i :: 0 <= i < o ==> out[i] == 0.0
    ensures forall i :: o <= i < o + |v.buffer| ==> out[i] == v.buffer[i - o]
    ensures forall i :: o + |v.buffer| <= i < BlockSize ==> out[i] == v.buffer[|v.buffer| - 1]
  {
    Voice.ShortBufferPlaysWithinBlock(v, o);
    forall i | o <= i < o + |v.buffer| ensures out[i] == v.buffer[i - o] {
      assert out[o + (i - o)] == v.buffer[i - o];
    }
  }

  /** Frame-wise sum of two blocks each holding one short buffer. */
  lemma MixOfFrames(b1: seq<real>, b2: seq<real>, s1: seq<real>, s2: seq<real>, o1: nat, o2: nat, out: seq<real>)
    requires |b1| == |b2| == BlockSize && 0 < |s1| && 0 < |s2| && o1 <= o2
    requires o1 + |s1| <= o2 + |s2| <= BlockSize
    requires forall i :: 0 <= i < o1 ==> b1[i] == 0.0
    requires forall i :: 0 <= i < o2 ==> b2[i] == 0.0
    requires forall i :: o1 <= i < o1 + |s1| ==> b1[i] == s1[i - o1]
    requires forall i :: o2 <= i < o2 + |s2| ==> b2[i] == s2[i - o2]
    requires forall i :: o1 + |s1| <= i < BlockSize ==> b1[i] == s1[|s1| - 1]
    requires out == Mix(b1, b2)
    ensures forall i :: 0 <= i < o1 ==> out[i] == 0.0
    ensures forall i :: o1 <= i < o2 && i < o1 + |s1| ==> out[i] == s1[i - o1]
    ensures forall i :: o2 <= i < o1 + |s1| ==> out[i] == s1[i - o1] + s2[i - o2]
    ensures forall i :: o2 <= i < o2 + |s2| && o1 + |s1| <= i ==> out[i] == s1[|s1| - 1] + s2[i - o2]
  {
  }

  /** Two short voices mixed, the first starting and ending no later than
      the second: silence before the first onset, the first alone, both
      summed while both play, then the second over the first's held last
      frame. */
  lemma MixFrames(v1: Voice.Playable, v2: Voice.Playable, o1: nat, o2: nat, out: seq<real>)
    requires v1.index == 0 && v2.index == 0 && o1 <= o2
    requires o1 + |v1.buffer| <= o2 + |v2.buffer| <= BlockSize
    requires out == Mix(Voice.GetNextBlock(v1, o1).out, Voice.GetNextBlock(v2, o2).out)
    ensures forall i :: 0 <= i < o1 ==> out[i] == 0.0
    ensures forall i :: o1 <= i < o2 && i < o1 + |v1.buffer| ==> out[i] == v1.buffer[i - o1]
    ensures forall i :: o2 <= i < o1 + |v1.buffer| ==> out[i] == v1.buffer[i - o1] + v2.buffer[i - o2]
    ensures forall i :: o2 <= i < o2 + |v2.buffer| && o1 + |v1.buffer| <= i ==>
      out[i] == v1.buffer[|v1.buffer| - 1] + v2.buffer[i - o2]
  {
    var b1 := Voice.GetNextBlock(v1, o1).out;
    var b2 := Voice.GetNextBlock(v2, o2).out;
    SoloFrames(v1, o1, b1);
    SoloFrames(v2, o2, b2);
    MixOfFrames(b1, b2, v1.buffer, v2.buffer, o1, o2, out);
  }

  /** Two fresh voices of equal length started together at frame 0 sum
      frame by frame. */
  lemma FreshMixFrames(s1: seq<real>, s2: seq<real>, out: seq<real>)
    requires 0 < |s1| == |s2| <= BlockSize
    requires out == Mix(Voice.GetNextBlock(Voice.WithBufferRef(s1), 0).out,
                        Voice.GetNextBlock(Voice.WithBufferRef(s2), 0).out)
    ensures forall i :: 0 <= i < |s1| ==> out[i] == s1[i] + s2[i]
  {
    var v1: Voice.Playable := Voice.WithBufferRef(s1);
    var v2: Voice.Playable := Voice.WithBufferRef(s2);
    SoloFrames(v1, 0, Voice.GetNextBlock(v1, 0).out);
    SoloFrames(v2, 0, Voice.GetNextBlock(v2, 0).out);
  }

  /** Two equally long voices started together sum frame by frame from
      their common onset. */
  lemma TogetherFrames(s1: seq<real>, s2: seq<real>, o: nat, out: seq<real>)
    requires 0 < |s1| == |s2| && o + |s1| <= BlockSize
    requires out == Mix(Voice.GetNextBlock(Voice.WithBufferRef(s1), o).out,
                        Voice.GetNextBlock(Voice.WithBufferRef(s2), o).out)
    ensures |out| == BlockSize
    ensures forall i :: o <= i < o + |s1| ==> out[i] == s1[i - o] + s2[i - o]
  {
    MixFrames(Voice.WithBufferRef(s1), Voice.WithBufferRef(s2), o, o, out);
  }

  /** The same frames at the tests' onset, 33. Substituting the literal
      onset in a lemma of its own keeps the scenario proofs small. */
  lemma TogetherFramesAt(s1: seq<real>, s2: seq<real>, o: nat, out: seq<real>)
    requires o == 33 && o + |s1| <= |out| && |s1| == |s2|
    requires forall i :: o <= i < o + |s1| ==> out[i] == s1[i - o] + s2[i - o]
    ensures forall i :: 33 <= i < 33 + |s1| ==> out[i] == s1[i - 33] + s2[i - 33]
  {
  }

  /** A buffer's frames from onset `o`, restated at the tests' onset, 33,
      in a lemma of its own for the same reason. */
  lemma SoloFramesAt(buf: seq<real>, o: nat, out: seq<real>)
    requires o == 33 && o + |buf| <= |out|
    requires forall i :: o <= i < o + |buf| ==> out[i] == buf[i - o]
    ensures forall i :: 33 <= i < 33 + |buf| ==> out[i] == buf[i - 33]
  {
  }

  /** The overlap test's block, from the two nine-frame voices' renders
      alone, the second starting four frames after the first. */
  lemma OverlapFrames(s1: seq<real>, s2: seq<real>, o1: nat, o2: nat, out: seq<real>)
    requires |s1| == 9 && |s2| == 9 && o2 == o1 + 4 && o1 + 13 <= BlockSize
    requires out == Mix(Voice.GetNextBlock(Voice.WithBufferRef(s1), o1).out,
                        Voice.GetNextBlock(Voice.WithBufferRef(s2), o2).out)
    ensures forall i :: 0 <= i < o1 ==> out[i] == 0.0
    ensures forall i :: o1 <= i < o1 + 4 ==> out[i] == s1[i - o1]
    ensures forall i :: o1 + 4 <= i < o1 + 9 ==> out[i] == s1[i - o1] + s2[i - o2]
    ensures forall i :: o1 + 9 <= i < o1 + 13 ==> out[i] == s1[8] + s2[i - o2]
  {
    MixFrames(Voice.WithBufferRef(s1), Voice.WithBufferRef(s2), o1, o2, out);
  }

  /** The same frames at the test's onsets, 33 and 37, in a lemma of its
      own for the same reason. */
  lemma OverlapFramesAt(s1: seq<real>, s2: seq<real>, o1: nat, o2: nat, out: seq<real>)
    requires |s1| == 9 && |s2| == 9 && o1 == 33 && o2 == 37 && |out| == BlockSize
    requires forall i :: 0 <= i < o1 ==> out[i] == 0.0
    requires forall i :: o1 <= i < o1 + 4 ==> out[i] == s1[i - o1]
    requires forall i :: o1 + 4 <= i < o1 + 9 ==> out[i] == s1[i - o1] + s2[i - o2]
    requires forall i :: o1 + 9 <= i < o1 + 13 ==> out[i] == s1[8] + s2[i - o2]
    ensures forall i :: 0 <= i < 33 ==> out[i] == 0.0
    ensures forall i :: 33 <= i < 37 ==> out[i] == s1[i - 33]
    ensures forall i :: 37 <= i < 42 ==> out[i] == s1[i - 33] + s2[i - 37]
    ensures forall i :: 42 <= i < 46 ==> out[i] == s1[8] + s2[i - 37]
  {
  }
}
