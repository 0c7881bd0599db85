/**
  The XAudio2 backend: an audio context owning an XAudio2 engine, its mastering
  voice, the decoded sample, the current source voice with its content buffer, the
  reverb effect chain, and the reverb state (stored block and flag). Unlike the
  FAudio backend it queues no silence tail, checks the results of attaching the
  effect chain and of submitting the buffer, releases its reference to the reverb
  effect once the chain holds it, frees the decoded samples with the voice, and
  releases the engine with the context.
*/
module XAudioBackend {
  import opened Audio
  import opened Native

  /** The mastering voice is opened for two channels at the engine's default rate. */
  const DefaultRate: nat := 0

  /** The calls of context creation before a context exists: the engine, then,
      if it was created, the mastering voice. */
  function OpenCalls(engine: Option<EngineHandle>, master: Option<VoiceHandle>): seq<NativeCall>
  {
    [CreateEngine(XAudio2, engine)]
      + (if engine.Some? then [CreateMasteringVoice(engine.value, MasterChannels, DefaultRate, master)] else [])
  }

  /** The calls that destroy voice `v`, if there is one: the decoded samples are
      freed first, then the source voice is destroyed. */
  function VoiceDestroyCalls(v: Option<AudioVoice>): seq<NativeCall>
  {
    if v.Some? then [FreeSamples, OnVoice(v.value.handle, DestroyVoice)] else []
  }

  /** The calls of reverb creation: nothing more if the effect was not created
      (then the voice is not touched, and may be absent); otherwise attach the
      one-effect chain to the voice, and only if that was accepted release the
      effect reference and push the stored block. */
  function ReverbCalls(voice: Option<AudioVoice>, reverb: Option<EffectHandle>, enabled: bool, channels: nat, accepted: bool, params: ReverbParams): seq<NativeCall>
    requires reverb.Some? ==> voice.Some?
  {
    if reverb.None? then [CreateReverb(None)]
    else
      var h := voice.value.handle;
      var chain := EffectChain(1, Some(ReverbDescriptor(enabled, channels, reverb.value)));
      [CreateReverb(reverb), OnVoice(h, SetEffectChain(chain, accepted))]
        + (if accepted then [ReleaseReverb(reverb.value), OnVoice(h, SetEffectParams(params, NativeLayout))] else [])
  }

  /** The calls of one sample load: destroy the previous voice, decode, create the
      voice for the decoded format, attach the reverb. */
  function LoadCalls(previous: Option<AudioVoice>, sample: AudioSampleWave, engine: EngineHandle, r: LoadReplies, enabled: bool, params: ReverbParams): seq<NativeCall>
    requires r.reverb.Some? ==> r.voice.Some?
  {
    VoiceDestroyCalls(previous)
      + [DecodeFile(sample)]
      + CreateVoiceCalls(engine, FloatFormat(r.wave.sampleRate, r.wave.channels), r.voice)
      + ReverbCalls(VoiceOf(r.voice), r.reverb, enabled, r.wave.channels, r.chainAccepted, params)
  }

  /** The reverb block a context starts with: entry 0 of the preset table. */
  const InitialParams := Preset(0)

  /** All calls of context creation: open, then load the first sample with the
      initial reverb state (off, first preset). */
  function CreateContextCalls(engine: Option<EngineHandle>, master: Option<VoiceHandle>, first: LoadReplies): seq<NativeCall>
    requires engine.Some? && master.Some? ==> (first.reverb.Some? ==> first.voice.Some?)
  {
    OpenCalls(engine, master)
      + (if engine.Some? && master.Some? then LoadCalls(None, SnareDrum01, engine.value, first, false, InitialParams) else [])
  }

  /** The voice calls of one play: stop, flush, queue the content, and start only
      if the content was accepted. */
  function PlayCalls(content: BufferDesc, accepted: bool): seq<VoiceCall>
  {
    [Stop, Flush, Submit(content, accepted)] + (if accepted then [Start] else [])
  }

  /** The calls of context destruction: the mastering voice, then the engine. */
  function DestroyCalls(engine: EngineHandle, master: VoiceHandle): seq<NativeCall>
  {
    [DestroyMasteringVoice(master), ReleaseEngine(engine)]
  }

  class AudioContext {
    const host: Host
    const xaudio2: EngineHandle
    const masteringVoice: VoiceHandle

    var wavChannels: nat
    var wavSampleRate: nat
    var wavSampleCount: nat
    var wavSamples: seq<real>

    var voice: Option<AudioVoice>
    var buffer: BufferDesc

    var reverbEffect: EffectDescriptor
    var effectChain: EffectChain
    var reverbParams: ReverbParams
    var reverbEnabled: bool

    /** A sample is loaded: its frame count is its sample count over its channels,
        and if a voice was created for it, the content buffer describes the sample. */
    ghost predicate Loaded()
      reads this`voice, this`wavChannels, this`wavSampleCount, this`wavSamples, this`buffer
    {
      && wavChannels > 0
      && wavSampleCount == |wavSamples| / wavChannels
      && (voice.Some? ==> buffer == ContentBuffer(wavSamples, wavSampleCount, wavChannels))
    }

    /** A context as created: no sample, no voice, reverb off with the first preset. */
    constructor (host: Host, xaudio2: EngineHandle, masteringVoice: VoiceHandle)
      ensures this.host == host && this.xaudio2 == xaudio2 && this.masteringVoice == masteringVoice
      ensures voice == None && wavSamples == []
      ensures wavChannels == 0 && wavSampleRate == 0 && wavSampleCount == 0
      ensures buffer == EmptyBuffer
      ensures reverbEffect == EmptyDescriptor && effectChain == EmptyChain
      ensures reverbParams == InitialParams && !reverbEnabled
    {
      this.host := host;
      this.xaudio2 := xaudio2;
      this.masteringVoice := masteringVoice;
      wavChannels, wavSampleRate, wavSampleCount, wavSamples := 0, 0, 0, [];
      voice := None;
      buffer := EmptyBuffer;
      reverbEffect, effectChain := EmptyDescriptor, EmptyChain;
      reverbParams := InitialParams;
      reverbEnabled := false;
    }

    /** Destroys the mastering voice and releases the engine. */
    method Destroy()
      modifies host
      ensures host.calls == old(host.calls) + DestroyCalls(xaudio2, masteringVoice)
    {
      host.calls := host.calls + [DestroyMasteringVoice(masteringVoice)];
      host.calls := host.calls + [ReleaseEngine(xaudio2)];
    }

    /**
      Creates a source voice for `frames` frames of `channels` interleaved floats.
      On failure nothing else happens; on success the voice gets unit volume and
      the content buffer describes the samples.
    */
    method CreateVoice(samples: seq<real>, frames: nat, rate: nat, channels: nat, created: Option<VoiceHandle>) returns (v: Option<AudioVoice>)
      modifies this`buffer, host
      ensures v == VoiceOf(created)
      ensures host.calls == old(host.calls) + CreateVoiceCalls(xaudio2, FloatFormat(rate, channels), created)
      ensures created.None? ==> buffer == old(buffer)
      ensures created.Some? ==> buffer == ContentBuffer(samples, frames, channels)
    {
      var format := FloatFormat(rate, channels);
      host.calls := host.calls + [CreateSourceVoice(xaudio2, format, created)];
      if created.None? {
        return None;
      }
      var h := created.value;
      host.calls := host.calls + [OnVoice(h, SetVolume(UnitVolume))];

      buffer := ContentBuffer(samples, frames, channels);

      v := Some(AudioVoice(h));
    }

    /** Pushes the stored block, with the size of the native reverb parameters, to
        the voice's effect. */
    method ReverbSetParams()
      requires voice.Some?
      modifies host
      ensures host.calls == old(host.calls) + [OnVoice(voice.value.handle, SetEffectParams(reverbParams, NativeLayout))]
    {
      host.calls := host.calls + [OnVoice(voice.value.handle, SetEffectParams(reverbParams, NativeLayout))];
    }

    /**
      Creates the reverb; if that fails nothing else happens, and the voice, which
      may be absent, is not touched. Otherwise the
      descriptor starts in the stored on/off state with the sample's channel count,
      the chain holds exactly that descriptor and is set on the voice; only if the
      voice accepts it is the effect reference released and the stored block pushed.
    */
    method CreateReverb(reverb: Option<EffectHandle>, accepted: bool)
      requires reverb.Some? ==> voice.Some?
      modifies this`reverbEffect, this`effectChain, host
      ensures reverb.None? ==> host.calls == old(host.calls) + [NativeCall.CreateReverb(None)]
      ensures host.calls == old(host.calls) + ReverbCalls(voice, reverb, reverbEnabled, wavChannels, accepted, reverbParams)
      ensures reverb.None? ==> reverbEffect == old(reverbEffect) && effectChain == old(effectChain)
      ensures reverb.Some? ==> reverbEffect == ReverbDescriptor(reverbEnabled, wavChannels, reverb.value)
      ensures reverb.Some? ==> effectChain == EffectChain(1, Some(reverbEffect))
    {
      host.calls := host.calls + [NativeCall.CreateReverb(reverb)];
      if reverb.None? {
        return;
      }
      reverbEffect := ReverbDescriptor(reverbEnabled, wavChannels, reverb.value);
      effectChain := EffectChain(1, Some(reverbEffect));
      var h := voice.value.handle;
      host.calls := host.calls + [OnVoice(h, SetEffectChain(effectChain, accepted))];
      if !accepted {
        return;
      }
      host.calls := host.calls + [ReleaseReverb(reverb.value)];
      ReverbSetParams();
    }

    /** Frees the decoded samples, then destroys the source voice of `v`. */
    method VoiceDestroy(v: AudioVoice)
      modifies host
      ensures host.calls == old(host.calls) + VoiceDestroyCalls(Some(v))
    {
      host.calls := host.calls + [FreeSamples];
      host.calls := host.calls + [OnVoice(v.handle, DestroyVoice)];
    }

    method VoiceSetVolume(v: AudioVoice, volume: real)
      modifies host
      ensures host.calls == old(host.calls) + [OnVoice(v.handle, SetVolume(volume))]
    {
      host.calls := host.calls + [OnVoice(v.handle, SetVolume(volume))];
    }

    method VoiceSetFrequency(v: AudioVoice, ratio: real)
      modifies host
      ensures host.calls == old(host.calls) + [OnVoice(v.handle, SetFrequencyRatio(ratio))]
    {
      host.calls := host.calls + [OnVoice(v.handle, SetFrequencyRatio(ratio))];
    }

    /**
      Reads the decoded sample into the context: samples, channel count and rate as
      decoded, and the decoder's total sample count divided by the channel count,
      which makes it the number of frames.
    */
    method ReadSample(sample: AudioSampleWave, wave: Decoded)
      requires wave.channels > 0
      modifies this`wavSamples, this`wavChannels, this`wavSampleRate, this`wavSampleCount, host
      ensures wavSamples == wave.samples && wavChannels == wave.channels && wavSampleRate == wave.sampleRate
      ensures wavSampleCount == |wave.samples| / wave.channels
      ensures host.calls == old(host.calls) + [DecodeFile(sample)]
    {
      host.calls := host.calls + [DecodeFile(sample)];
      wavSamples, wavChannels, wavSampleRate := wave.samples, wave.channels, wave.sampleRate;
      wavSampleCount := |wavSamples|;

      wavSampleCount := wavSampleCount / wavChannels;
    }

    /**
      Loads a decoded sample: the previous voice, if any, is destroyed first; the
      decoder's total sample count becomes a frame count; a voice is created for it
      and the reverb attached with the stored state. The reverb state itself is kept.
      If neither the voice nor the reverb is created, the context is left without a
      voice and its buffer as it was.
    */
    method WaveLoad(sample: AudioSampleWave, r: LoadReplies)
      requires Loadable(r)
      modifies this`wavSamples, this`wavChannels, this`wavSampleRate, this`wavSampleCount
      modifies this`voice, this`buffer, this`reverbEffect, this`effectChain, host
      ensures Loaded() && voice == VoiceOf(r.voice)
      ensures r.voice.None? ==> buffer == old(buffer)
      ensures wavSamples == r.wave.samples && wavChannels == r.wave.channels && wavSampleRate == r.wave.sampleRate
      ensures wavSampleCount == |r.wave.samples| / r.wave.channels
      ensures reverbParams == old(reverbParams) && reverbEnabled == old(reverbEnabled)
      ensures r.reverb.None? ==> reverbEffect == old(reverbEffect) && effectChain == old(effectChain)
      ensures r.reverb.Some? ==> reverbEffect == ReverbDescriptor(reverbEnabled, wavChannels, r.reverb.value)
      ensures r.reverb.Some? ==> effectChain == EffectChain(1, Some(reverbEffect))
      ensures host.calls == old(host.calls) + LoadCalls(old(voice), sample, xaudio2, r, reverbEnabled, reverbParams)
    {
      ghost var t0 := host.calls;
      if voice.Some? {
        VoiceDestroy(voice.value);
      }
      assert host.calls == t0 + VoiceDestroyCalls(old(voice));
      ReadSample(sample, r.wave);
      ghost var t1 := host.calls;
      voice := CreateVoice(wavSamples, wavSampleCount, wavSampleRate, wavChannels, r.voice);
      assert Loaded();
      ghost var t2 := host.calls;
      CreateReverb(r.reverb, r.chainAccepted);
      TraceSteps(t0, VoiceDestroyCalls(old(voice)) + [DecodeFile(sample)], t1,
        CreateVoiceCalls(xaudio2, FloatFormat(r.wave.sampleRate, r.wave.channels), r.voice), t2,
        ReverbCalls(VoiceOf(r.voice), r.reverb, reverbEnabled, r.wave.channels, r.chainAccepted, reverbParams), host.calls);
    }

    /** Restarts playback: stop, flush, queue the content; start only if the
        content was accepted. */
    method WavePlay(accepted: bool)
      requires voice.Some?
      modifies host
      ensures host.calls == old(host.calls) + Issue(voice.value.handle, PlayCalls(buffer, accepted))
    {
      var h := voice.value.handle;
      host.calls := host.calls + [OnVoice(h, Stop)];
      host.calls := host.calls + [OnVoice(h, Flush)];
      host.calls := host.calls + [OnVoice(h, Submit(buffer, accepted))];
      if !accepted {
        assert Issue(h, PlayCalls(buffer, accepted)) == [OnVoice(h, Stop), OnVoice(h, Flush), OnVoice(h, Submit(buffer, accepted))];
        return;
      }
      host.calls := host.calls + [OnVoice(h, Start)];
      assert Issue(h, PlayCalls(buffer, accepted))
          == [OnVoice(h, Stop), OnVoice(h, Flush), OnVoice(h, Submit(buffer, accepted)), OnVoice(h, Start)];
    }

    /**
      Changes the reverb: disables or enables the effect only when the request
      differs from the stored flag, then stores and pushes the block in any case.
    */
    method EffectChange(enabled: bool, params: ReverbParams)
      requires voice.Some?
      modifies this`reverbEnabled, this`reverbParams, host
      ensures reverbEnabled == enabled && reverbParams == params
      ensures host.calls == old(host.calls) + Issue(voice.value.handle, EffectChangeCalls(old(reverbEnabled), enabled, params, NativeLayout))
    {
      var h := voice.value.handle;
      if reverbEnabled && !enabled {
        host.calls := host.calls + [OnVoice(h, DisableEffect)];
        reverbEnabled := enabled;
      } else if !reverbEnabled && enabled {
        host.calls := host.calls + [OnVoice(h, EnableEffect)];
        reverbEnabled := enabled;
      }
      reverbParams := params;
      ReverbSetParams();
      ghost var cs := EffectChangeCalls(old(reverbEnabled), enabled, params, NativeLayout);
      assert Issue(h, cs) == Issue(h, cs[..|cs| - 1]) + [OnVoice(h, cs[|cs| - 1])];
    }
  }

  /**
    Creates a context: null if the engine or the mastering voice cannot be created;
    otherwise a context in its initial reverb state in which the first sample has
    been loaded, with a voice unless that load failed to create one.
  */
  method CreateContext(host: Host, engine: Option<EngineHandle>, master: Option<VoiceHandle>, first: LoadReplies) returns (ctx: AudioContext?)
    requires engine.Some? && master.Some? ==> Loadable(first)
    modifies host
    ensures ctx != null <==> engine.Some? && master.Some?
    ensures host.calls == old(host.calls) + CreateContextCalls(engine, master, first)
    ensures ctx != null ==> fresh(ctx) && ctx.host == host && ctx.Loaded()
    ensures ctx != null ==> ctx.xaudio2 == engine.value && ctx.masteringVoice == master.value
    ensures ctx != null ==> ctx.voice == VoiceOf(first.voice) && ctx.reverbParams == InitialParams && !ctx.reverbEnabled
    ensures ctx != null ==> ctx.wavSamples == first.wave.samples && ctx.wavChannels == first.wave.channels && ctx.wavSampleRate == first.wave.sampleRate
    ensures ctx != null && first.reverb.Some? ==> ctx.reverbEffect == ReverbDescriptor(false, first.wave.channels, first.reverb.value)
    ensures ctx != null && first.reverb.Some? ==> ctx.effectChain == EffectChain(1, Some(ctx.reverbEffect))
  {
    host.calls := host.calls + [CreateEngine(XAudio2, engine)];
    if engine.None? {
      return null;
    }
    host.calls := host.calls + [CreateMasteringVoice(engine.value, MasterChannels, DefaultRate, master)];
    if master.None? {
      return null;
    }
    ctx := new AudioContext(host, engine.value, master.value);
    ctx.WaveLoad(SnareDrum01, first);
  }

  /**
    The reverb calls of a load, on the voice just created: the voice ends up with
    the effect in the stored state and block when the effect was created and the
    chain accepted, and with no effect otherwise; the effect reference is released
    exactly when the chain holds it; nothing else changes.
  */
  lemma ReverbAttaches(w: World, h: VoiceHandle, reverb: Option<EffectHandle>, enabled: bool, channels: nat, accepted: bool, params: ReverbParams)
    requires h in w.voices && w.voices[h] == FreshVoice
    ensures Exec(w, ReverbCalls(Some(AudioVoice(h)), reverb, enabled, channels, accepted, params))
              == w.(voices := w.voices[h := VoiceState([], false, if reverb.Some? && accepted then Some(EffectState(enabled, Some(params))) else None)])
    ensures (exists e :: ReleaseReverb(e) in ReverbCalls(Some(AudioVoice(h)), reverb, enabled, channels, accepted, params)) <==> reverb.Some? && accepted
  {
    var cs := ReverbCalls(Some(AudioVoice(h)), reverb, enabled, channels, accepted, params);
    if reverb.None? {
      ExecSingle(w, NativeCall.CreateReverb(None));
      assert w.voices[h := FreshVoice] == w.voices;
    } else {
      var chain := EffectChain(1, Some(ReverbDescriptor(enabled, channels, reverb.value)));
      var attach := [NativeCall.CreateReverb(reverb), OnVoice(h, SetEffectChain(chain, accepted))];
      var rest := if accepted then [ReleaseReverb(reverb.value), OnVoice(h, SetEffectParams(params, NativeLayout))] else [];
      ExecAppend(w, attach, rest);
      ExecAppend(w, [NativeCall.CreateReverb(reverb)], [OnVoice(h, SetEffectChain(chain, accepted))]);
      assert attach == [NativeCall.CreateReverb(reverb)] + [OnVoice(h, SetEffectChain(chain, accepted))];
      ExecSingle(w, NativeCall.CreateReverb(reverb));
      ExecSingle(w, OnVoice(h, SetEffectChain(chain, accepted)));
      var w1 := Exec(w, attach);
      if accepted {
        assert rest == [ReleaseReverb(reverb.value)] + [OnVoice(h, SetEffectParams(params, NativeLayout))];
        ExecAppend(w1, [ReleaseReverb(reverb.value)], [OnVoice(h, SetEffectParams(params, NativeLayout))]);
        ExecSingle(w1, ReleaseReverb(reverb.value));
        ExecSingle(w1, OnVoice(h, SetEffectParams(params, NativeLayout)));
        assert ReleaseReverb(reverb.value) in cs;
      } else {
        assert w1.voices[h] == FreshVoice;
        assert w.voices[h := FreshVoice] == w.voices;
        assert cs == attach;
      }
    }
  }

  /**
    A load replaces the voice: the previous voice is destroyed, the new one, if
    created, is live with nothing queued, stopped, and the reverb attached as the
    stored state says if that succeeded; engines, mastering voices and all other
    voices are left as they were.
  */
  lemma LoadReplacesVoice(w: World, previous: Option<AudioVoice>, sample: AudioSampleWave, engine: EngineHandle, r: LoadReplies, enabled: bool, params: ReverbParams)
    requires r.reverb.Some? ==> r.voice.Some?
    ensures var w' := Exec(w, LoadCalls(previous, sample, engine, r, enabled, params));
      var rest := if previous.Some? then w.voices - {previous.value.handle} else w.voices;
      && w'.engines == w.engines && w'.masters == w.masters
      && w'.voices == (if r.voice.Some? then rest[r.voice.value := VoiceState([], false, AttachedEffect(r, enabled, params))] else rest)
      && (r.voice.Some? ==> Mirrors(w', r.voice.value, enabled, params))
  {
    var d := VoiceDestroyCalls(previous);
    var format := FloatFormat(r.wave.sampleRate, r.wave.channels);
    var c := CreateVoiceCalls(engine, format, r.voice);
    var rc := ReverbCalls(VoiceOf(r.voice), r.reverb, enabled, r.wave.channels, r.chainAccepted, params);
    ExecAppend(w, d + [DecodeFile(sample)] + c, rc);
    ExecAppend(w, d + [DecodeFile(sample)], c);
    ExecAppend(w, d, [DecodeFile(sample)]);
    if previous.Some? {
      assert d == [FreeSamples] + DestroyVoiceCall(previous);
      ExecAppend(w, [FreeSamples], DestroyVoiceCall(previous));
      ExecSingle(w, FreeSamples);
    }
    ExecDestroyVoiceCall(w, previous);
    var w1 := Exec(w, d);
    ExecSingle(w1, DecodeFile(sample));
    ExecCreateVoice(w1, engine, format, r.voice);
    if r.voice.Some? {
      var h := r.voice.value;
      var w2 := w1.(voices := w1.voices[h := FreshVoice]);
      ReverbAttaches(w2, h, r.reverb, enabled, r.wave.channels, r.chainAccepted, params);
      assert w2.voices[h := VoiceState([], false, AttachedEffect(r, enabled, params))] == w1.voices[h := VoiceState([], false, AttachedEffect(r, enabled, params))];
    } else {
      ExecSingle(w1, NativeCall.CreateReverb(None));
    }
  }

  /**
    One play leaves the voice with only the content queued and started when the
    engine accepts the content, and stopped with nothing queued when it does not:
    the stop before the flush drops whatever was still queued.
  */
  lemma PlayQueuesContent(v: VoiceState, content: BufferDesc, accepted: bool)
    ensures Run(v, PlayCalls(content, accepted))
              == if accepted then v.(queue := [content], running := true) else v.(queue := [], running := false)
  {
    var cs := PlayCalls(content, accepted);
    var v0 := Apply(v, Stop);
    assert Run(v, cs) == Run(v0, cs[1..]);
    var v1 := Apply(v0, Flush);
    assert v1 == v.(queue := [], running := false);
    assert cs[1..][1..] == cs[2..];
    assert Run(v0, cs[1..]) == Run(v1, cs[2..]);
    var v2 := Apply(v1, Submit(content, accepted));
    assert cs[2..][1..] == cs[3..];
    assert Run(v1, cs[2..]) == Run(v2, cs[3..]);
    if accepted {
      assert cs[3..][1..] == [];
      assert Run(v2, cs[3..]) == Apply(v2, Start);
    } else {
      assert cs[3..] == [];
    }
  }

  /**
    Context creation over a world: the engine is live once created, even when the
    mastering voice then fails and no context is returned; on success the
    mastering voice is live and the first sample's voice, if created, is fresh, with the
    reverb, if attached, off and holding the first preset.
  */
  lemma CreateContextOpens(w: World, engine: Option<EngineHandle>, master: Option<VoiceHandle>, first: LoadReplies)
    requires engine.Some? && master.Some? ==> (first.reverb.Some? ==> first.voice.Some?)
    ensures var w' := Exec(w, CreateContextCalls(engine, master, first));
      && w'.engines == w.engines + (if engine.Some? then {engine.value} else {})
      && w'.masters == w.masters + (if engine.Some? && master.Some? then {master.value} else {})
      && w'.voices == if engine.Some? && master.Some? && first.voice.Some?
                      then w.voices[first.voice.value := VoiceState([], false, AttachedEffect(first, false, InitialParams))]
                      else w.voices
  {
    var open := OpenCalls(engine, master);
    var rest := if engine.Some? && master.Some? then LoadCalls(None, SnareDrum01, engine.value, first, false, InitialParams) else [];
    ExecAppend(w, open, rest);
    if engine.None? {
      ExecSingle(w, CreateEngine(XAudio2, engine));
      assert w.engines + {} == w.engines && w.masters + {} == w.masters;
    } else {
      var e := engine.value;
      var m := CreateMasteringVoice(e, MasterChannels, DefaultRate, master);
      assert open == [CreateEngine(XAudio2, engine)] + [m];
      ExecAppend(w, [CreateEngine(XAudio2, engine)], [m]);
      ExecSingle(w, CreateEngine(XAudio2, engine));
      var w1 := w.(engines := w.engines + {e});
      ExecSingle(w1, m);
      if master.Some? {
        LoadReplacesVoice(Exec(w, open), None, SnareDrum01, e, first, false, InitialParams);
      } else {
        assert w.masters + {} == w.masters;
      }
    }
  }

  /**
    Destroying a context releases its mastering voice and its engine, but the
    source voice of a context created and destroyed stays live.
  */
  lemma DestroyReleasesEngineNotVoice(w: World, e: EngineHandle, m: VoiceHandle, first: LoadReplies)
    requires first.reverb.Some? ==> first.voice.Some?
    ensures var w' := Exec(Exec(w, CreateContextCalls(Some(e), Some(m), first)), DestroyCalls(e, m));
      && e !in w'.engines && m !in w'.masters
      && (first.voice.Some? ==> first.voice.value in w'.voices)
  {
    CreateContextOpens(w, Some(e), Some(m), first);
    var w1 := Exec(w, CreateContextCalls(Some(e), Some(m), first));
    assert DestroyCalls(e, m) == [DestroyMasteringVoice(m)] + [ReleaseEngine(e)];
    ExecAppend(w1, [DestroyMasteringVoice(m)], [ReleaseEngine(e)]);
    ExecSingle(w1, DestroyMasteringVoice(m));
    ExecSingle(w1.(masters := w1.masters - {m}), ReleaseEngine(e));
  }
}
