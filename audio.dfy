/**
  Vocabulary shared by both backends: the enumerations of audio.h, the values an
  audio context stores (buffer descriptors, wave format, effect chain, reverb
  parameter block), the calls a backend issues to the native engine and to the
  decoder, and the descriptor arithmetic that both backends perform identically.
*/
module Audio {

  /** The engine a context is bound to (AudioEngine). */
  datatype AudioEngine = XAudio2 | FAudio

  /** The sample files the player can load (AudioSampleWave). */
  datatype AudioSampleWave = SnareDrum01 | SnareDrum02 | SnareDrum03

  datatype Option<T> = None | Some(value: T)

  /** Handles handed out by the native engine; null is `None` where it can occur. */
  type EngineHandle = nat
  type VoiceHandle = nat
  type EffectHandle = nat

  /**
    A reverb parameter block. Its byte layout is not part of this model, so a block
    is symbolic: the zero-initialised block, a copy of entry `index` of the static
    preset table, or a block of tuned field values.
  */
  datatype ReverbParams = Zeroed | Preset(index: nat) | Tuned(fields: seq<real>)

  /** Whose `sizeof` accompanies a pushed parameter block: the native reverb
      parameter struct or the larger tunable test struct. */
  datatype ParamsLayout = NativeLayout | TestLayout

  /** What the external decoder hands over: interleaved samples (all channels of
      frame 0, then of frame 1, ...), the channel count and the sample rate. */
  datatype Decoded = Decoded(samples: seq<real>, channels: nat, sampleRate: nat)

  /** A playback voice: the native source-voice handle it wraps. */
  datatype AudioVoice = AudioVoice(handle: VoiceHandle)

  const BytesPerSample: nat := 4        // 32-bit float samples
  const IeeeFloatTag: nat := 3          // WAVE_FORMAT_IEEE_FLOAT
  const EndOfStream: nat := 0x40        // the END_OF_STREAM buffer flag of both engines
  const SilenceSeconds: nat := 2
  const SilenceRate: nat := 48000
  const MasterChannels: nat := 2
  const UnitVolume: real := 1.0

  /** Truncation to an unsigned 32-bit field. */
  function U32(n: nat): nat
  {
    n % 0x1_0000_0000
  }

  /** An audio buffer descriptor (FAudioBuffer / XAUDIO2_BUFFER); `data` is what
      the buffer's data pointer refers to. */
  datatype BufferDesc = BufferDesc(
    audioBytes: nat,
    data: seq<real>,
    flags: nat,
    playBegin: nat,
    playLength: nat,
    loopBegin: nat,
    loopLength: nat,
    loopCount: nat)

  /** The value-initialised descriptor a fresh context holds. */
  const EmptyBuffer := BufferDesc(0, [], 0, 0, 0, 0, 0, 0)

  /** The buffer is played once from its first frame and ends the stream: no loop. */
  predicate PlaysOnceToEnd(b: BufferDesc)
  {
    && b.flags == EndOfStream
    && b.playBegin == 0
    && b.loopBegin == 0 && b.loopLength == 0 && b.loopCount == 0
  }

  lemma ProductSign(x: int, c: nat)
    ensures x >= 1 ==> x * c >= c
    ensures x <= -1 ==> x * c + c <= 0
  {
    assert x * c == (x - 1) * c + c;
    assert x * c == (x + 1) * c - c;
  }

  lemma ExactQuotient(a: nat, c: nat, q: nat)
    requires c > 0 && a == q * c
    ensures a / c == q
  {
    var r := a / c;
    assert (q - r) * c == a % c;
    ProductSign(q - r, c);
  }

  /**
    The descriptor wrapping the decoded samples: `frames` frames of `channels`
    32-bit floats, played once to the end of the stream.
  */
  function ContentBuffer(samples: seq<real>, frames: nat, channels: nat): (b: BufferDesc)
    ensures PlaysOnceToEnd(b) && b.data == samples
  {
    BufferDesc(U32(BytesPerSample * frames * channels), samples, EndOfStream, 0, U32(frames), 0, 0, 0)
  }

  /**
    The content descriptor is consistent whenever its byte count fits its field:
    the byte count is that of `frames` frames, agrees with the play length (one
    frame is `channels` floats), and never reaches past the end of the sample data.
  */
  lemma ContentBufferBytes(samples: seq<real>, frames: nat, channels: nat)
    requires channels > 0
    ensures var b := ContentBuffer(samples, frames, channels);
      BytesPerSample * frames * channels < 0x1_0000_0000 ==>
        b.audioBytes == BytesPerSample * frames * channels &&
        b.audioBytes == BytesPerSample * channels * b.playLength
    ensures var b := ContentBuffer(samples, frames, channels);
      frames * channels <= |samples| && BytesPerSample * |samples| < 0x1_0000_0000 ==>
        b.audioBytes <= BytesPerSample * |b.data|
  {
  }

  /**
    The content descriptor of a decoded sample, whose frame count is the total
    sample count divided by the channel count: when the sample's size fits the
    byte-count field, the descriptor covers whole frames only, stays within the
    samples, and leaves out less than one frame at the end.
  */
  lemma DecodedContentWithinSamples(samples: seq<real>, channels: nat)
    requires channels > 0
    requires BytesPerSample * |samples| < 0x1_0000_0000
    ensures var b := ContentBuffer(samples, |samples| / channels, channels);
      && b.audioBytes == BytesPerSample * channels * b.playLength
      && b.audioBytes <= BytesPerSample * |b.data|
      && BytesPerSample * |b.data| - b.audioBytes < BytesPerSample * channels
  {
    var q := |samples| / channels;
    assert |samples| == q * channels + |samples| % channels;
    assert BytesPerSample * q * channels == BytesPerSample * (q * channels);
    ContentBufferBytes(samples, q, channels);
  }

  /** The samples of the silence tail: two seconds at 48 kHz of every channel, all zero. */
  function Silence(channels: nat): (s: seq<real>)
    ensures |s| == SilenceSeconds * SilenceRate * channels
    ensures forall k :: 0 <= k < |s| ==> s[k] == 0.0
  {
    seq(SilenceSeconds * SilenceRate * channels, _ => 0.0)
  }

  /** The descriptor of the silence tail queued after the content: `data` played
      once to the end of the stream. */
  function SilenceBuffer(data: seq<real>, channels: nat): (b: BufferDesc)
    requires channels > 0
    ensures PlaysOnceToEnd(b) && b.data == data
  {
    BufferDesc(U32(BytesPerSample * |data|), data, EndOfStream, 0, U32(|data| / channels), 0, 0, 0)
  }

  /**
    The silence descriptor of the silence of `channels` channels plays exactly two
    seconds at 48 kHz, and its byte count is that of its data when it fits.
  */
  lemma SilenceBufferLength(channels: nat)
    requires channels > 0
    ensures var b := SilenceBuffer(Silence(channels), channels);
      b.playLength == SilenceSeconds * SilenceRate &&
      (BytesPerSample * |b.data| < 0x1_0000_0000 ==> b.audioBytes == BytesPerSample * |b.data|)
  {
    ExactQuotient(|Silence(channels)|, channels, SilenceSeconds * SilenceRate);
  }

  /** The wave format block (FAudioWaveFormatEx / WAVEFORMATEX). */
  datatype WaveFormat = WaveFormat(
    formatTag: nat,
    channels: nat,
    samplesPerSec: nat,
    avgBytesPerSec: nat,
    blockAlign: nat,
    bitsPerSample: nat,
    cbSize: nat)

  /**
    The format of interleaved 32-bit float samples: a block (one frame) holds one
    float per channel, and one second holds `rate` blocks.
  */
  function FloatFormat(rate: nat, channels: nat): (f: WaveFormat)
    ensures f.formatTag == IeeeFloatTag && f.bitsPerSample == 8 * BytesPerSample && f.cbSize == 0
    ensures f.channels == channels && f.samplesPerSec == rate
    ensures f.blockAlign == channels * BytesPerSample
    ensures f.avgBytesPerSec == f.samplesPerSec * f.blockAlign
  {
    var align := channels * BytesPerSample;
    WaveFormat(IeeeFloatTag, channels, rate, rate * align, align, 32, 0)
  }

  /** An effect descriptor: initial on/off state, output channels, effect instance. */
  datatype EffectDescriptor = EffectDescriptor(initialState: bool, outputChannels: nat, effect: Option<EffectHandle>)

  /** An effect chain: the count and the (single) descriptor it points at. */
  datatype EffectChain = EffectChain(effectCount: nat, descriptor: Option<EffectDescriptor>)

  const EmptyDescriptor := EffectDescriptor(false, 0, None)
  const EmptyChain := EffectChain(0, None)

  /** A call issued on one native source voice. */
  datatype VoiceCall =
    | SetVolume(volume: real)
    | SetFrequencyRatio(ratio: real)
    | SetEffectChain(chain: EffectChain, accepted: bool)
    | SetEffectParams(params: ReverbParams, layout: ParamsLayout)
    | EnableEffect
    | DisableEffect
    | Stop
    | Flush
    | Submit(buffer: BufferDesc, accepted: bool)
    | Start
    | DestroyVoice

  /**
    A call issued to the native engine or to the decoder, with what it returned
    where the caller receives a result.
  */
  datatype NativeCall =
    | CreateEngine(kind: AudioEngine, engine: Option<EngineHandle>)
    | ReleaseEngine(released: EngineHandle)
    | CreateMasteringVoice(onEngine: EngineHandle, channels: nat, rate: nat, master: Option<VoiceHandle>)
    | DestroyMasteringVoice(destroyed: VoiceHandle)
    | CreateSourceVoice(sourceEngine: EngineHandle, format: WaveFormat, voice: Option<VoiceHandle>)
    | CreateReverb(reverb: Option<EffectHandle>)
    | ReleaseReverb(effect: EffectHandle)
    | OnVoice(target: VoiceHandle, call: VoiceCall)
    | DecodeFile(sample: AudioSampleWave)
    | FreeSamples

  /** The native world the program talks to; `calls` records every call issued, in order. */
  class Host {
    ghost var calls: seq<NativeCall>

    constructor ()
      ensures calls == []
    {
      calls := [];
    }
  }

  /** A trace extended in three steps is extended by the three parts together. */
  lemma TraceSteps(t0: seq<NativeCall>, a: seq<NativeCall>, t1: seq<NativeCall>, b: seq<NativeCall>,
                   t2: seq<NativeCall>, c: seq<NativeCall>, t3: seq<NativeCall>)
    requires t1 == t0 + a && t2 == t1 + b && t3 == t2 + c
    ensures t3 == t0 + (a + b + c)
  {
  }

  /** The native calls that issue `cs`, in order, on voice `h`. */
  function Issue(h: VoiceHandle, cs: seq<VoiceCall>): (r: seq<NativeCall>)
    ensures |r| == |cs|
    ensures forall i :: 0 <= i < |cs| ==> r[i] == OnVoice(h, cs[i])
  {
    if cs == [] then [] else [OnVoice(h, cs[0])] + Issue(h, cs[1..])
  }

  /**
    The voice calls of one effect change, given the stored flag and the requested
    one: an enable or disable only on a transition, toward the requested state,
    and the parameter block pushed every time.
  */
  function EffectChangeCalls(stored: bool, requested: bool, params: ReverbParams, layout: ParamsLayout): (cs: seq<VoiceCall>)
    ensures |cs| == if stored == requested then 1 else 2
    ensures cs[|cs| - 1] == SetEffectParams(params, layout)
    ensures EnableEffect in cs <==> !stored && requested
    ensures DisableEffect in cs <==> stored && !requested
  {
    var toggle :=
      if stored && !requested then [DisableEffect]
      else if !stored && requested then [EnableEffect]
      else [];
    toggle + [SetEffectParams(params, layout)]
  }

  /** What the decoder and the engine answer during one sample load: the decoded
      sample, the created source voice, the created reverb effect and whether the
      engine accepted the effect chain. */
  datatype LoadReplies = LoadReplies(
    wave: Decoded,
    voice: Option<VoiceHandle>,
    reverb: Option<EffectHandle>,
    chainAccepted: bool)

  /** A load the program survives: the decoder reported at least one channel (the
      frame count divides by it), and a created reverb has a voice to attach to
      (its chain is set through the voice otherwise). A load in which both the
      voice and the reverb fail is survived, and leaves no voice. */
  predicate Loadable(r: LoadReplies)
  {
    r.wave.channels > 0 && (r.reverb.Some? ==> r.voice.Some?)
  }

  /** The voice wrapping the source voice created, if any. */
  function VoiceOf(created: Option<VoiceHandle>): Option<AudioVoice>
  {
    if created.Some? then Some(AudioVoice(created.value)) else None
  }

  /** Whether the engine accepted each buffer submitted by one play. */
  datatype PlayReplies = PlayReplies(contentAccepted: bool, silenceAccepted: bool)

  /** The voice calls that destroy `v` if there is one. */
  function DestroyVoiceCall(v: Option<AudioVoice>): seq<NativeCall>
  {
    if v.Some? then [OnVoice(v.value.handle, DestroyVoice)] else []
  }

  /** The calls of voice creation: the source voice, then unit volume on success. */
  function CreateVoiceCalls(engine: EngineHandle, format: WaveFormat, created: Option<VoiceHandle>): seq<NativeCall>
  {
    [CreateSourceVoice(engine, format, created)]
      + (if created.Some? then [OnVoice(created.value, SetVolume(UnitVolume))] else [])
  }

  /** The descriptor of the reverb effect attached to a voice. */
  function ReverbDescriptor(enabled: bool, channels: nat, reverb: EffectHandle): EffectDescriptor
  {
    EffectDescriptor(enabled, channels, Some(reverb))
  }
}
