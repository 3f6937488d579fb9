/** The integer vocabulary shared by the JavaScript host and the Rust engine
    (ruffbox-synth/src/ruffbox/synth.rs): parameter codes and source-type codes.
    Both enums are `#[repr(C)]`, so a variant's code is its declaration index. */
module Vocabulary {
  import opened Common

  datatype SynthParameter =
    | Attack | Decay | DelayDampeningFrequency | DelayFeedback | DelayMix
    | DelayTime | Duration | PitchFrequency | PitchNote | HighpassCutoffFrequency
    | HighpassQFactor | Level | LowpassCutoffFrequency | LowpassQFactor | LowpassFilterDistortion
    | PeakFrequency | PeakGain | PeakQFactor | Pulsewidth | PlaybackRate
    | PlaybackStart | PlaybackLoop | Release | ReverbDampening | ReverbMix
    | ReverbRoomsize | SampleBufferNumber | Samplerate | StereoPosition | Sustain

  /** The variants in declaration order: the discriminant is the position here. */
  const ParameterOrder: seq<SynthParameter> := [
    Attack, Decay, DelayDampeningFrequency, DelayFeedback, DelayMix,
    DelayTime, Duration, PitchFrequency, PitchNote, HighpassCutoffFrequency,
    HighpassQFactor, Level, LowpassCutoffFrequency, LowpassQFactor, LowpassFilterDistortion,
    PeakFrequency, PeakGain, PeakQFactor, Pulsewidth, PlaybackRate,
    PlaybackStart, PlaybackLoop, Release, ReverbDampening, ReverbMix,
    ReverbRoomsize, SampleBufferNumber, Samplerate, StereoPosition, Sustain
  ]

  /** The code written in the inline comment next to each variant. */
  function ParameterCode(p: SynthParameter): (c: nat)
    ensures c < 30
  {
    match p
    case Attack => 0
    case Decay => 1
    case DelayDampeningFrequency => 2
    case DelayFeedback => 3
    case DelayMix => 4
    case DelayTime => 5
    case Duration => 6
    case PitchFrequency => 7
    case PitchNote => 8
    case HighpassCutoffFrequency => 9
    case HighpassQFactor => 10
    case Level => 11
    case LowpassCutoffFrequency => 12
    case LowpassQFactor => 13
    case LowpassFilterDistortion => 14
    case PeakFrequency => 15
    case PeakGain => 16
    case PeakQFactor => 17
    case Pulsewidth => 18
    case PlaybackRate => 19
    case PlaybackStart => 20
    case PlaybackLoop => 21
    case Release => 22
    case ReverbDampening => 23
    case ReverbMix => 24
    case ReverbRoomsize => 25
    case SampleBufferNumber => 26
    case Samplerate => 27
    case StereoPosition => 28
    case Sustain => 29
  }

  /** Decodes an integer received over the wasm boundary; codes outside the
      table are not a variant of the enum. */
  function ParameterFromCode(c: int): (r: Option<SynthParameter>)
    ensures r.Some? <==> 0 <= c < 30
    ensures r.Some? ==> ParameterCode(r.value) == c
  {
    if 0 <= c < |ParameterOrder| then
      ParameterCommentsMatchOrder();
      Some(ParameterOrder[c])
    else None
  }

  /** The inline comments agree with the declaration order: the code of the
      variant at position i is i, and every variant sits at its code. */
  lemma ParameterCommentsMatchOrder()
    ensures |ParameterOrder| == 30
    ensures forall i :: 0 <= i < |ParameterOrder| ==> ParameterCode(ParameterOrder[i]) == i
    ensures forall p :: ParameterOrder[ParameterCode(p)] == p
  {
    forall i | 0 <= i < |ParameterOrder|
      ensures ParameterCode(ParameterOrder[i]) == i
    {
      CodeAtPosition(i);
    }
    forall p: SynthParameter
      ensures ParameterOrder[ParameterCode(p)] == p
    {
      VariantAtItsCode(p);
    }
  }

  lemma VariantAtItsCode(p: SynthParameter)
    ensures ParameterOrder[ParameterCode(p)] == p
  {
    match p
    case Attack =>
    case Decay =>
    case DelayDampeningFrequency =>
    case DelayFeedback =>
    case DelayMix =>
    case DelayTime =>
    case Duration =>
    case PitchFrequency =>
    case PitchNote =>
    case HighpassCutoffFrequency =>
    case HighpassQFactor =>
    case Level =>
    case LowpassCutoffFrequency =>
    case LowpassQFactor =>
    case LowpassFilterDistortion =>
    case PeakFrequency =>
    case PeakGain =>
    case PeakQFactor =>
    case Pulsewidth =>
    case PlaybackRate =>
    case PlaybackStart =>
    case PlaybackLoop =>
    case Release =>
    case ReverbDampening =>
    case ReverbMix =>
    case ReverbRoomsize =>
    case SampleBufferNumber =>
    case Samplerate =>
    case StereoPosition =>
    case Sustain =>
  }

  lemma CodeAtPosition(i: nat)
    requires i < |ParameterOrder|
    ensures ParameterCode(ParameterOrder[i]) == i
  {
    if i < 10 {
      CodeAtLowPosition(i);
    } else if i < 20 {
      CodeAtMiddlePosition(i);
    } else {
      CodeAtHighPosition(i);
    }
  }

  lemma CodeAtLowPosition(i: nat)
    requires i < 10
    ensures ParameterCode(ParameterOrder[i]) == i
  {
    if i < 5 {} else {}
  }

  lemma CodeAtMiddlePosition(i: nat)
    requires 10 <= i < 20
    ensures ParameterCode(ParameterOrder[i]) == i
  {
    if i < 15 {} else {}
  }

  lemma CodeAtHighPosition(i: nat)
    requires 20 <= i < 30
    ensures ParameterCode(ParameterOrder[i]) == i
  {
    if i < 25 {} else {}
  }

  /** Distinct parameters never share a code. */
  lemma ParameterCodesInjective(p: SynthParameter, q: SynthParameter)
    requires ParameterCode(p) == ParameterCode(q)
    ensures p == q
  {
    ParameterCommentsMatchOrder();
    assert ParameterOrder[ParameterCode(p)] == p;
  }

  /** Decoding a parameter's own code gives the parameter back. */
  lemma ParameterCodeRoundTrip(p: SynthParameter)
    ensures ParameterFromCode(ParameterCode(p)) == Some(p)
  {
    ParameterCommentsMatchOrder();
  }

  /** The five master-effect codes the audio worklet sends. */
  lemma MasterParameterCodes()
    ensures ParameterFromCode(25) == Some(ReverbRoomsize)
    ensures ParameterFromCode(23) == Some(ReverbDampening)
    ensures ParameterFromCode(5) == Some(DelayTime)
    ensures ParameterFromCode(3) == Some(DelayFeedback)
    ensures ParameterFromCode(2) == Some(DelayDampeningFrequency)
  {
    ParameterCodeRoundTrip(ReverbRoomsize);
    ParameterCodeRoundTrip(ReverbDampening);
    ParameterCodeRoundTrip(DelayTime);
    ParameterCodeRoundTrip(DelayFeedback);
    ParameterCodeRoundTrip(DelayDampeningFrequency);
  }

  datatype SourceType = Sampler | SineOsc | SineSynth | LFSawSynth | LFSquareSynth

  function SourceTypeCode(t: SourceType): (c: nat)
    ensures c < 5
  {
    match t
    case Sampler => 0
    case SineOsc => 1
    case SineSynth => 2
    case LFSawSynth => 3
    case LFSquareSynth => 4
  }

  function SourceTypeFromCode(c: int): (r: Option<SourceType>)
    ensures r.Some? <==> 0 <= c < 5
    ensures r.Some? ==> SourceTypeCode(r.value) == c
  {
    if c == 0 then Some(Sampler)
    else if c == 1 then Some(SineOsc)
    else if c == 2 then Some(SineSynth)
    else if c == 3 then Some(LFSawSynth)
    else if c == 4 then Some(LFSquareSynth)
    else None
  }

  /** Source-type codes are a bijection between the five variants and 0..4. */
  lemma SourceTypeCodeRoundTrip(t: SourceType)
    ensures SourceTypeFromCode(SourceTypeCode(t)) == Some(t)
  {
  }
}
