/**
  The FAudio backend: an audio context owning an FAudio engine, its mastering
  voice, the decoded sample, the current source voice with its content and silence
  buffers, the reverb effect chain, and the reverb state (stored block and flag).
  Every native call is appended to the host's trace; native results arrive as
  parameters.
*/
module FAudioBackend {
  import opened Audio
  import opened Native

  /** The mastering voice is opened for two channels at 44.1 kHz. */
  const MasterRate: nat := 44100

  /** The calls of context creation before a context exists: the engine, then,
      if it was created, the mastering voice. */
  function OpenCalls(engine: Option<EngineHandle>, master: Option<VoiceHandle>): seq<NativeCall>
  {
    [CreateEngine(FAudio, engine)]
      + (if engine.Some? then [CreateMasteringVoice(engine.value, MasterChannels, MasterRate, master)] else [])
  }

  /** The calls of reverb creation: nothing more if the effect was not created
      (then the voice is not touched, and may be absent); otherwise attach the
      one-effect chain to the voice and push the stored block. */
  function ReverbCalls(voice: Option<AudioVoice>, reverb: Option<EffectHandle>, enabled: bool, channels: nat, accepted: bool, params: ReverbParams): seq<NativeCall>
    requires reverb.Some? ==> voice.Some?
  {
    if reverb.None? then [CreateReverb(None)]
    else
      var h := voice.value.handle;
      var chain := EffectChain(1, Some(ReverbDescriptor(enabled, channels, reverb.value)));
      [CreateReverb(reverb), OnVoice(h, SetEffectChain(chain, accepted)), OnVoice(h, SetEffectParams(params, TestLayout))]
  }

  /** The calls of one sample load: destroy the previous voice, decode, create the
      voice for the decoded format, attach the reverb. */
  function LoadCalls(previous: Option<AudioVoice>, sample: AudioSampleWave, engine: EngineHandle, r: LoadReplies, enabled: bool, params: ReverbParams): seq<NativeCall>
    requires r.reverb.Some? ==> r.voice.Some?
  {
    DestroyVoiceCall(previous)
      + [DecodeFile(sample)]
      + CreateVoiceCalls(engine, FormatAsWritten(r.wave.sampleRate, r.wave.channels), r.voice)
      + ReverbCalls(VoiceOf(r.voice), r.reverb, enabled, r.wave.channels, r.chainAccepted, params)
  }

  /** All calls of context creation: open, then load the first sample with the
      initial reverb state (off, zeroed block). */
  function CreateContextCalls(engine: Option<EngineHandle>, master: Option<VoiceHandle>, first: LoadReplies): seq<NativeCall>
    requires engine.Some? && master.Some? ==> (first.reverb.Some? ==> first.voice.Some?)
  {
    OpenCalls(engine, master)
      + (if engine.Some? && master.Some? then LoadCalls(None, SnareDrum01, engine.value, first, false, Zeroed) else [])
  }

  /** The voice calls of one play: stop, flush, queue content then silence, start. */
  function PlayCalls(content: BufferDesc, silence: BufferDesc, r: PlayReplies): seq<VoiceCall>
  {
    [Stop, Flush, Submit(content, r.contentAccepted), Submit(silence, r.silenceAccepted), Start]
  }

  /** The calls of context destruction: only the mastering voice is destroyed. */
  function DestroyCalls(master: VoiceHandle): seq<NativeCall>
  {
    [DestroyMasteringVoice(master)]
  }

  class AudioContext {
    const host: Host
    const faudio: EngineHandle
    const masteringVoice: VoiceHandle

    var wavChannels: nat
    var wavSampleRate: nat
    var wavSampleCount: nat
    var wavSamples: seq<real>

    var voice: Option<AudioVoice>
    var buffer: BufferDesc
    var silence: BufferDesc

    var reverbEffect: EffectDescriptor
    var effectChain: EffectChain
    var reverbParams: ReverbParams
    var reverbEnabled: bool

    /** A sample is loaded: its frame count is its sample count over its channels,
        and if a voice was created for it, the content and silence buffers
        describe the sample and its silence tail. */
    ghost predicate Loaded()
      reads this`voice, this`wavChannels, this`wavSampleCount, this`wavSamples, this`buffer, this`silence
    {
      && wavChannels > 0
      && wavSampleCount == |wavSamples| / wavChannels
      && (voice.Some? ==> buffer == ContentBuffer(wavSamples, wavSampleCount, wavChannels))
      && (voice.Some? ==> silence == SilenceBuffer(Silence(wavChannels), wavChannels))
    }

    /** A context as created: no sample, no voice, reverb off with a zeroed block. */
    constructor (host: Host, faudio: EngineHandle, masteringVoice: VoiceHandle)
      ensures this.host == host && this.faudio == faudio && this.masteringVoice == masteringVoice
      ensures voice == None && wavSamples == []
      ensures wavChannels == 0 && wavSampleRate == 0 && wavSampleCount == 0
      ensures buffer == EmptyBuffer && silence == EmptyBuffer
      ensures reverbEffect == EmptyDescriptor && effectChain == EmptyChain
      ensures reverbParams == Zeroed && !reverbEnabled
    {
      this.host := host;
      this.faudio := faudio;
      this.masteringVoice := masteringVoice;
      wavChannels, wavSampleRate, wavSampleCount, wavSamples := 0, 0, 0, [];
      voice := None;
      buffer, silence := EmptyBuffer, EmptyBuffer;
      reverbEffect, effectChain := EmptyDescriptor, EmptyChain;
      reverbParams := Zeroed;
      reverbEnabled := false;
    }

    /** Destroys the mastering voice; the engine is not released. */
    method Destroy()
      modifies host
      ensures host.calls == old(host.calls) + DestroyCalls(masteringVoice)
    {
      host.calls := host.calls + [DestroyMasteringVoice(masteringVoice)];
    }

    /**
      Creates a source voice for `frames` frames of `channels` interleaved floats.
      On failure nothing else happens; on success the voice gets unit volume, the
      content buffer describes the samples, and a freshly zero-filled silence tail
      of two seconds at 48 kHz is described by the silence buffer.
    */
    method CreateVoice(samples: seq<real>, frames: nat, rate: nat, channels: nat, created: Option<VoiceHandle>) returns (v: Option<AudioVoice>)
      requires created.Some? ==> channels > 0
      modifies this`buffer, this`silence, host
      ensures v == VoiceOf(created)
      ensures host.calls == old(host.calls) + CreateVoiceCalls(faudio, FormatAsWritten(rate, channels), created)
      ensures created.None? ==> buffer == old(buffer) && silence == old(silence)
      ensures created.Some? ==> buffer == ContentBuffer(samples, frames, channels)
      ensures created.Some? ==> silence == SilenceBuffer(Silence(channels), channels)
    {
      var format := FormatAsWritten(rate, channels);
      host.calls := host.calls + [CreateSourceVoice(faudio, format, created)];
      if created.None? {
        return None;
      }
      var h := created.value;
      host.calls := host.calls + [OnVoice(h, SetVolume(UnitVolume))];
      assert host.calls == old(host.calls) + CreateVoiceCalls(faudio, format, created);

      buffer := ContentBuffer(samples, frames, channels);

      var silenceLen := SilenceSeconds * SilenceRate * channels;
      var silenceSamples := new real[silenceLen];
      for i := 0 to silenceLen
        modifies silenceSamples
        invariant forall k :: 0 <= k < i ==> silenceSamples[k] == 0.0
      {
        silenceSamples[i] := 0.0;
      }
      assert silenceSamples[..] == Silence(channels);
      silence := SilenceBuffer(silenceSamples[..], channels);

      v := Some(AudioVoice(h));
    }

    /** Pushes the stored block, with the size of the test struct, to the voice's effect. */
    method ReverbSetParams()
      requires voice.Some?
      modifies host
      ensures host.calls == old(host.calls) + [OnVoice(voice.value.handle, SetEffectParams(reverbParams, TestLayout))]
    {
      host.calls := host.calls + [OnVoice(voice.value.handle, SetEffectParams(reverbParams, TestLayout))];
    }

    /**
      Creates the reverb; if that fails nothing else happens, and the voice, which
      may be absent, is not touched. Otherwise the
      descriptor starts in the stored on/off state with the sample's channel count,
      the chain holds exactly that descriptor, the chain is set on the voice (its
      result unchecked) and the stored block is pushed.
    */
    method CreateReverb(reverb: Option<EffectHandle>, accepted: bool)
      requires reverb.Some? ==> voice.Some?
      modifies this`reverbEffect, this`effectChain, host
      ensures reverb.None? ==> host.calls == old(host.calls) + [NativeCall.CreateReverb(None)]
      ensures host.calls == old(host.calls) + ReverbCalls(voice, reverb, reverbEnabled, wavChannels, accepted, reverbParams)
      ensures reverb.None? ==> reverbEffect == old(reverbEffect) && effectChain == old(effectChain)
      ensures reverb.Some? ==> reverbEffect == ReverbDescriptor(reverbEnabled, wavChannels, reverb.value)
      ensures reverb.Some? ==> effectChain == EffectChain(1, Some(reverbEffect))
    {
      host.calls := host.calls + [NativeCall.CreateReverb(reverb)];
      if reverb.None? {
        return;
      }
      reverbEffect := ReverbDescriptor(reverbEnabled, wavChannels, reverb.value);
      effectChain := EffectChain(1, Some(reverbEffect));
      var h := voice.value.handle;
      host.calls := host.calls + [OnVoice(h, SetEffectChain(effectChain, accepted))];
      ReverbSetParams();
    }

    /** Destroys the source voice of `v`. */
    method VoiceDestroy(v: AudioVoice)
      modifies host
      ensures host.calls == old(host.calls) + [OnVoice(v.handle, DestroyVoice)]
    {
      host.calls := host.calls + [OnVoice(v.handle, DestroyVoice)];
    }

    method VoiceSetVolume(v: AudioVoice, volume: real)
      modifies host
      ensures host.calls == old(host.calls) + [OnVoice(v.handle, SetVolume(volume))]
    {
      host.calls := host.calls + [OnVoice(v.handle, SetVolume(volume))];
    }

    method VoiceSetFrequency(v: AudioVoice, ratio: real)
      modifies host
      ensures host.calls == old(host.calls) + [OnVoice(v.handle, SetFrequencyRatio(ratio))]
    {
      host.calls := host.calls + [OnVoice(v.handle, SetFrequencyRatio(ratio))];
    }

    /**
      Reads the decoded sample into the context: samples, channel count and rate as
      decoded, and the decoder's total sample count divided by the channel count,
      which makes it the number of frames.
    */
    method ReadSample(sample: AudioSampleWave, wave: Decoded)
      requires wave.channels > 0
      modifies this`wavSamples, this`wavChannels, this`wavSampleRate, this`wavSampleCount, host
      ensures wavSamples == wave.samples && wavChannels == wave.channels && wavSampleRate == wave.sampleRate
      ensures wavSampleCount == |wave.samples| / wave.channels
      ensures host.calls == old(host.calls) + [DecodeFile(sample)]
    {
      host.calls := host.calls + [DecodeFile(sample)];
      wavSamples, wavChannels, wavSampleRate := wave.samples, wave.channels, wave.sampleRate;
      wavSampleCount := |wavSamples|;

      wavSampleCount := wavSampleCount / wavChannels;
    }

    /**
      Loads a decoded sample: the previous voice, if any, is destroyed first; the
      decoder's total sample count becomes a frame count by dividing by the channel
      count; a voice is created for it and the reverb attached with the stored
      state. The reverb state itself is kept. If neither the voice nor the reverb
      is created, the context is left without a voice and its buffers as they were.
    */
    method WaveLoad(sample: AudioSampleWave, r: LoadReplies)
      requires Loadable(r)
      modifies this`wavSamples, this`wavChannels, this`wavSampleRate, this`wavSampleCount
      modifies this`voice, this`buffer, this`silence, this`reverbEffect, this`effectChain, host
      ensures Loaded() && voice == VoiceOf(r.voice)
      ensures r.voice.None? ==> buffer == old(buffer) && silence == old(silence)
      ensures wavSamples == r.wave.samples && wavChannels == r.wave.channels && wavSampleRate == r.wave.sampleRate
      ensures wavSampleCount == |r.wave.samples| / r.wave.channels
      ensures reverbParams == old(reverbParams) && reverbEnabled == old(reverbEnabled)
      ensures r.reverb.None? ==> reverbEffect == old(reverbEffect) && effectChain == old(effectChain)
      ensures r.reverb.Some? ==> reverbEffect == ReverbDescriptor(reverbEnabled, wavChannels, r.reverb.value)
      ensures r.reverb.Some? ==> effectChain == EffectChain(1, Some(reverbEffect))
      ensures host.calls == old(host.calls) + LoadCalls(old(voice), sample, faudio, r, reverbEnabled, reverbParams)
    {
      ghost var t0 := host.calls;
      if voice.Some? {
        VoiceDestroy(voice.value);
      }
      assert host.calls == t0 + DestroyVoiceCall(old(voice));
      ReadSample(sample, r.wave);
      ghost var t1 := host.calls;
      voice := CreateVoice(wavSamples, wavSampleCount, wavSampleRate, wavChannels, r.voice);
      ghost var t2 := host.calls;
      CreateReverb(r.reverb, r.chainAccepted);
      TraceSteps(t0, DestroyVoiceCall(old(voice)) + [DecodeFile(sample)], t1,
        CreateVoiceCalls(faudio, FormatAsWritten(r.wave.sampleRate, r.wave.channels), r.voice), t2,
        ReverbCalls(VoiceOf(r.voice), r.reverb, reverbEnabled, r.wave.channels, r.chainAccepted, reverbParams), host.calls);
    }

    /** Restarts playback: stop, flush, queue content then silence (results
        ignored), start. */
    method WavePlay(r: PlayReplies)
      requires voice.Some?
      modifies host
      ensures host.calls == old(host.calls) + Issue(voice.value.handle, PlayCalls(buffer, silence, r))
    {
      var h := voice.value.handle;
      host.calls := host.calls + [OnVoice(h, Stop)];
      host.calls := host.calls + [OnVoice(h, Flush)];
      host.calls := host.calls + [OnVoice(h, Submit(buffer, r.contentAccepted))];
      host.calls := host.calls + [OnVoice(h, Submit(silence, r.silenceAccepted))];
      host.calls := host.calls + [OnVoice(h, Start)];
      assert Issue(h, PlayCalls(buffer, silence, r))
          == [OnVoice(h, Stop), OnVoice(h, Flush), OnVoice(h, Submit(buffer, r.contentAccepted)),
              OnVoice(h, Submit(silence, r.silenceAccepted)), OnVoice(h, Start)];
    }

    /**
      Changes the reverb: disables or enables the effect only when the request
      differs from the stored flag, then stores and pushes the block in any case.
    */
    method EffectChange(enabled: bool, params: ReverbParams)
      requires voice.Some?
      modifies this`reverbEnabled, this`reverbParams, host
      ensures reverbEnabled == enabled && reverbParams == params
      ensures host.calls == old(host.calls) + Issue(voice.value.handle, EffectChangeCalls(old(reverbEnabled), enabled, params, TestLayout))
    {
      var h := voice.value.handle;
      if reverbEnabled && !enabled {
        host.calls := host.calls + [OnVoice(h, DisableEffect)];
        reverbEnabled := enabled;
      } else if !reverbEnabled && enabled {
        host.calls := host.calls + [OnVoice(h, EnableEffect)];
        reverbEnabled := enabled;
      }
      reverbParams := params;
      ReverbSetParams();
      ghost var cs := EffectChangeCalls(old(reverbEnabled), enabled, params, TestLayout);
      assert Issue(h, cs) == Issue(h, cs[..|cs| - 1]) + [OnVoice(h, cs[|cs| - 1])];
    }
  }

  /**
    Creates a context: null if the engine or the mastering voice cannot be created;
    otherwise a context in its initial reverb state in which the first sample has
    been loaded, with a voice unless that load failed to create one.
  */
  method CreateContext(host: Host, engine: Option<EngineHandle>, master: Option<VoiceHandle>, first: LoadReplies) returns (ctx: AudioContext?)
    requires engine.Some? && master.Some? ==> Loadable(first)
    modifies host
    ensures ctx != null <==> engine.Some? && master.Some?
    ensures host.calls == old(host.calls) + CreateContextCalls(engine, master, first)
    ensures ctx != null ==> fresh(ctx) && ctx.host == host && ctx.Loaded()
    ensures ctx != null ==> ctx.faudio == engine.value && ctx.masteringVoice == master.value
    ensures ctx != null ==> ctx.voice == VoiceOf(first.voice) && ctx.reverbParams == Zeroed && !ctx.reverbEnabled
    ensures ctx != null ==> ctx.wavSamples == first.wave.samples && ctx.wavChannels == first.wave.channels && ctx.wavSampleRate == first.wave.sampleRate
    ensures ctx != null && first.reverb.Some? ==> ctx.reverbEffect == ReverbDescriptor(false, first.wave.channels, first.reverb.value)
    ensures ctx != null && first.reverb.Some? ==> ctx.effectChain == EffectChain(1, Some(ctx.reverbEffect))
  {
    host.calls := host.calls + [CreateEngine(FAudio, engine)];
    if engine.None? {
      return null;
    }
    host.calls := host.calls + [CreateMasteringVoice(engine.value, MasterChannels, MasterRate, master)];
    if master.None? {
      return null;
    }
    ctx := new AudioContext(host, engine.value, master.value);
    ctx.WaveLoad(SnareDrum01, first);
  }

  /**
    The reverb calls of a load, on the voice just created: the voice ends up with
    the effect in the stored state and block when the effect was created and the
    chain accepted, and with no effect otherwise; nothing else changes.
  */
  lemma ReverbAttaches(w: World, h: VoiceHandle, reverb: Option<EffectHandle>, enabled: bool, channels: nat, accepted: bool, params: ReverbParams)
    requires h in w.voices && w.voices[h] == FreshVoice
    ensures Exec(w, ReverbCalls(Some(AudioVoice(h)), reverb, enabled, channels, accepted, params))
              == w.(voices := w.voices[h := VoiceState([], false, if reverb.Some? && accepted then Some(EffectState(enabled, Some(params))) else None)])
  {
    var cs := ReverbCalls(Some(AudioVoice(h)), reverb, enabled, channels, accepted, params);
    if reverb.None? {
      ExecSingle(w, NativeCall.CreateReverb(None));
      assert w.voices[h := FreshVoice] == w.voices;
    } else {
      var chain := EffectChain(1, Some(ReverbDescriptor(enabled, channels, reverb.value)));
      var vcs := [SetEffectChain(chain, accepted), SetEffectParams(params, TestLayout)];
      assert cs == [NativeCall.CreateReverb(reverb)] + Issue(h, vcs);
      ExecAppend(w, [NativeCall.CreateReverb(reverb)], Issue(h, vcs));
      ExecSingle(w, NativeCall.CreateReverb(reverb));
      ExecIssue(w, h, vcs);
      var attached := Apply(FreshVoice, vcs[0]);
      assert Run(FreshVoice, vcs) == Run(attached, vcs[1..]);
      assert vcs[1..][1..] == [];
      assert Run(attached, vcs[1..]) == Apply(attached, vcs[1]);
    }
  }

  /**
    A load replaces the voice: the previous voice is destroyed, the new one, if
    created, is live with nothing queued, stopped, and the reverb attached as the
    stored state says if that succeeded; engines, mastering voices and all other
    voices are left as they were.
  */
  lemma LoadReplacesVoice(w: World, previous: Option<AudioVoice>, sample: AudioSampleWave, engine: EngineHandle, r: LoadReplies, enabled: bool, params: ReverbParams)
    requires r.reverb.Some? ==> r.voice.Some?
    ensures var w' := Exec(w, LoadCalls(previous, sample, engine, r, enabled, params));
      var rest := if previous.Some? then w.voices - {previous.value.handle} else w.voices;
      && w'.engines == w.engines && w'.masters == w.masters
      && w'.voices == (if r.voice.Some? then rest[r.voice.value := VoiceState([], false, AttachedEffect(r, enabled, params))] else rest)
      && (r.voice.Some? ==> Mirrors(w', r.voice.value, enabled, params))
  {
    var d := DestroyVoiceCall(previous);
    var format := FormatAsWritten(r.wave.sampleRate, r.wave.channels);
    var c := CreateVoiceCalls(engine, format, r.voice);
    var rc := ReverbCalls(VoiceOf(r.voice), r.reverb, enabled, r.wave.channels, r.chainAccepted, params);
    ExecAppend(w, d + [DecodeFile(sample)] + c, rc);
    ExecAppend(w, d + [DecodeFile(sample)], c);
    ExecAppend(w, d, [DecodeFile(sample)]);
    ExecDestroyVoiceCall(w, previous);
    var w1 := Exec(w, d);
    ExecSingle(w1, DecodeFile(sample));
    ExecCreateVoice(w1, engine, format, r.voice);
    if r.voice.Some? {
      var h := r.voice.value;
      var w2 := w1.(voices := w1.voices[h := FreshVoice]);
      ReverbAttaches(w2, h, r.reverb, enabled, r.wave.channels, r.chainAccepted, params);
      assert w2.voices[h := VoiceState([], false, AttachedEffect(r, enabled, params))] == w1.voices[h := VoiceState([], false, AttachedEffect(r, enabled, params))];
    } else {
      ExecSingle(w1, NativeCall.CreateReverb(None));
    }
  }

  /**
    One play leaves the voice started with exactly the accepted buffers queued,
    content before silence: the stop before the flush drops whatever was still
    queued, including a buffer in progress.
  */
  lemma PlayQueuesContentThenSilence(v: VoiceState, content: BufferDesc, silence: BufferDesc, r: PlayReplies)
    ensures Run(v, PlayCalls(content, silence, r))
              == v.(queue := (if r.contentAccepted then [content] else []) + (if r.silenceAccepted then [silence] else []), running := true)
  {
    var cs := PlayCalls(content, silence, r);
    var v0 := Apply(v, Stop);
    assert Run(v, cs) == Run(v0, cs[1..]);
    var v1 := Apply(v0, Flush);
    assert v1 == v.(queue := [], running := false);
    assert cs[1..][1..] == cs[2..];
    assert Run(v0, cs[1..]) == Run(v1, cs[2..]);
    var v2 := Apply(v1, Submit(content, r.contentAccepted));
    assert cs[2..][1..] == cs[3..];
    assert Run(v1, cs[2..]) == Run(v2, cs[3..]);
    var v3 := Apply(v2, Submit(silence, r.silenceAccepted));
    assert cs[3..][1..] == cs[4..];
    assert Run(v2, cs[3..]) == Run(v3, cs[4..]);
    assert cs[4..][1..] == [];
    assert Run(v3, cs[4..]) == Apply(v3, Start);
  }

  /**
    Context creation over a world: the engine is live once created, even when the
    mastering voice then fails and no context is returned; on success the
    mastering voice is live and the first sample's voice, if created, is fresh, with the
    reverb, if attached, off and holding a zeroed block.
  */
  lemma CreateContextOpens(w: World, engine: Option<EngineHandle>, master: Option<VoiceHandle>, first: LoadReplies)
    requires engine.Some? && master.Some? ==> (first.reverb.Some? ==> first.voice.Some?)
    ensures var w' := Exec(w, CreateContextCalls(engine, master, first));
      && w'.engines == w.engines + (if engine.Some? then {engine.value} else {})
      && w'.masters == w.masters + (if engine.Some? && master.Some? then {master.value} else {})
      && w'.voices == if engine.Some? && master.Some? && first.voice.Some?
                      then w.voices[first.voice.value := VoiceState([], false, AttachedEffect(first, false, Zeroed))]
                      else w.voices
  {
    var open := OpenCalls(engine, master);
    var rest := if engine.Some? && master.Some? then LoadCalls(None, SnareDrum01, engine.value, first, false, Zeroed) else [];
    ExecAppend(w, open, rest);
    if engine.None? {
      ExecSingle(w, CreateEngine(FAudio, engine));
      assert w.engines + {} == w.engines && w.masters + {} == w.masters;
    } else {
      var e := engine.value;
      var m := CreateMasteringVoice(e, MasterChannels, MasterRate, master);
      assert open == [CreateEngine(FAudio, engine)] + [m];
      ExecAppend(w, [CreateEngine(FAudio, engine)], [m]);
      ExecSingle(w, CreateEngine(FAudio, engine));
      var w1 := w.(engines := w.engines + {e});
      ExecSingle(w1, m);
      if master.Some? {
        LoadReplacesVoice(Exec(w, open), None, SnareDrum01, e, first, false, Zeroed);
      } else {
        assert w.masters + {} == w.masters;
      }
    }
  }

  /**
    Destroying a context releases only its mastering voice: the engine and the
    source voice of a context created and destroyed stay live.
  */
  lemma DestroyLeavesEngineAndVoice(w: World, e: EngineHandle, m: VoiceHandle, first: LoadReplies)
    requires first.reverb.Some? ==> first.voice.Some?
    ensures var w' := Exec(Exec(w, CreateContextCalls(Some(e), Some(m), first)), DestroyCalls(m));
      && e in w'.engines && m !in w'.masters
      && (first.voice.Some? ==> first.voice.value in w'.voices)
  {
    CreateContextOpens(w, Some(e), Some(m), first);
    ExecSingle(Exec(w, CreateContextCalls(Some(e), Some(m), first)), DestroyMasteringVoice(m));
  }

  /** The wave format as the FAudio backend fills it in: the average byte rate is
      the sample rate times four, whatever the channel count. */
  function FormatAsWritten(rate: nat, channels: nat): (f: WaveFormat)
    ensures f.formatTag == IeeeFloatTag && f.bitsPerSample == 8 * BytesPerSample && f.cbSize == 0
    ensures f.channels == channels && f.samplesPerSec == rate && f.blockAlign == channels * BytesPerSample
    ensures f.avgBytesPerSec == f.samplesPerSec * BytesPerSample
  {
    WaveFormat(IeeeFloatTag, channels, rate, rate * 4, channels * 4, 32, 0)
  }

  /**
    For more than one channel the written average byte rate is not the sample rate
    times the block size: a stereo sample at 48 kHz is declared at 192000 bytes per
    second where its blocks of 8 bytes make 384000. With one channel the two agree,
    and in every case the corrected format differs from the written one only there.
  */
  lemma FormatAsWrittenUnderstatesByteRate(rate: nat, channels: nat)
    requires rate > 0 && channels >= 2
    ensures FormatAsWritten(rate, channels).avgBytesPerSec < rate * FormatAsWritten(rate, channels).blockAlign
    ensures FormatAsWritten(48000, 2).avgBytesPerSec == 192000 && FloatFormat(48000, 2).avgBytesPerSec == 384000
    ensures FormatAsWritten(rate, 1) == FloatFormat(rate, 1)
    ensures FloatFormat(rate, channels) == FormatAsWritten(rate, channels).(avgBytesPerSec := rate * channels * BytesPerSample)
  {
  }
}
