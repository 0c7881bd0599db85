/**
  The player facade: an `AudioPlayer` holds at most one audio context, of either
  backend, and forwards each operation to it, doing nothing while it holds none.
*/
module Player {
  import opened Audio
  import FAudioBackend
  import XAudioBackend

  /** A context of one of the two backends. */
  datatype Context =
    | FAudioContext(f: FAudioBackend.AudioContext)
    | XAudioContext(x: XAudioBackend.AudioContext)

  function EngineOf(c: Context): AudioEngine
  {
    match c
    case FAudioContext(_) => FAudio
    case XAudioContext(_) => XAudio2
  }

  /** The object behind a context. */
  function Obj(c: Context): object
  {
    match c
    case FAudioContext(f) => f
    case XAudioContext(x) => x
  }

  /** The objects behind a context the player may hold. */
  function Objs(c: Option<Context>): set<object>
  {
    if c.Some? then {Obj(c.value)} else {}
  }

  /** A context that records into `host` and has a sample loaded; it can play and
      change its effect only if that load created a voice (`Voiced`). */
  ghost predicate Usable(c: Context, host: Host)
    reads Obj(c)
  {
    match c
    case FAudioContext(f) => f.host == host && f.Loaded()
    case XAudioContext(x) => x.host == host && x.Loaded()
  }

  /** The context has a source voice: playing and changing the effect go through
      it, and with none they dereference a null voice. */
  ghost predicate Voiced(c: Context)
    reads Obj(c)
  {
    match c
    case FAudioContext(f) => f.voice.Some?
    case XAudioContext(x) => x.voice.Some?
  }

  /** What the engine answers while a context is created: the engine, the
      mastering voice, and the replies to loading the first sample. */
  datatype CreateReplies = CreateReplies(engine: Option<EngineHandle>, master: Option<VoiceHandle>, first: LoadReplies)

  /** Creation the program survives: if engine and mastering voice exist, the first
      load is one the program survives. */
  predicate Creatable(r: CreateReplies)
  {
    r.engine.Some? && r.master.Some? ==> Loadable(r.first)
  }

  /** The state a newly created context starts in: the engine and mastering voice
      it was given, the first sample decoded into it with its voice, if created,
      current, and the reverb off with the backend's initial block. */
  ghost predicate StartsWith(c: Context, r: CreateReplies)
    reads Obj(c)
  {
    match c
    case FAudioContext(f) =>
      && r.engine == Some(f.faudio) && r.master == Some(f.masteringVoice)
      && f.voice == VoiceOf(r.first.voice)
      && !f.reverbEnabled && f.reverbParams == Zeroed
      && f.wavSamples == r.first.wave.samples && f.wavChannels == r.first.wave.channels && f.wavSampleRate == r.first.wave.sampleRate
      && (r.first.reverb.Some? ==> f.reverbEffect == ReverbDescriptor(false, r.first.wave.channels, r.first.reverb.value))
      && (r.first.reverb.Some? ==> f.effectChain == EffectChain(1, Some(f.reverbEffect)))
    case XAudioContext(x) =>
      && r.engine == Some(x.xaudio2) && r.master == Some(x.masteringVoice)
      && x.voice == VoiceOf(r.first.voice)
      && !x.reverbEnabled && x.reverbParams == XAudioBackend.InitialParams
      && x.wavSamples == r.first.wave.samples && x.wavChannels == r.first.wave.channels && x.wavSampleRate == r.first.wave.sampleRate
      && (r.first.reverb.Some? ==> x.reverbEffect == ReverbDescriptor(false, r.first.wave.channels, r.first.reverb.value))
      && (r.first.reverb.Some? ==> x.effectChain == EffectChain(1, Some(x.reverbEffect)))
  }

  /** The calls of creating a context of engine `kind`. */
  function CreateCalls(kind: AudioEngine, r: CreateReplies): seq<NativeCall>
    requires Creatable(r)
  {
    if kind == FAudio then FAudioBackend.CreateContextCalls(r.engine, r.master, r.first)
    else XAudioBackend.CreateContextCalls(r.engine, r.master, r.first)
  }

  /** The calls of destroying context `c`. */
  function DestroyCalls(c: Context): seq<NativeCall>
  {
    match c
    case FAudioContext(f) => FAudioBackend.DestroyCalls(f.masteringVoice)
    case XAudioContext(x) => XAudioBackend.DestroyCalls(x.xaudio2, x.masteringVoice)
  }

  /**
    Creates a context of engine `kind` with that backend: none if the engine or
    the mastering voice cannot be created, otherwise a fresh, usable context of
    that engine.
  */
  method CreateContext(host: Host, kind: AudioEngine, r: CreateReplies) returns (c: Option<Context>)
    requires Creatable(r)
    modifies host
    ensures c.Some? <==> r.engine.Some? && r.master.Some?
    ensures c.Some? ==> EngineOf(c.value) == kind && fresh(Obj(c.value)) && Usable(c.value, host)
    ensures c.Some? ==> StartsWith(c.value, r)
    ensures host.calls == old(host.calls) + CreateCalls(kind, r)
  {
    if kind == FAudio {
      var f := FAudioBackend.CreateContext(host, r.engine, r.master, r.first);
      c := if f == null then None else Some(FAudioContext(f));
    } else {
      var x := XAudioBackend.CreateContext(host, r.engine, r.master, r.first);
      c := if x == null then None else Some(XAudioContext(x));
    }
  }

  class AudioPlayer {
    const host: Host
    var context: Option<Context>

    /** The context held, if any, is usable. */
    ghost predicate Valid()
      reads this, Objs(context)
    {
      context.Some? ==> Usable(context.value, host)
    }

    /** A player set up with the FAudio engine. */
    constructor (host: Host, r: CreateReplies)
      requires Creatable(r)
      modifies host
      ensures this.host == host && Valid()
      ensures context.Some? <==> r.engine.Some? && r.master.Some?
      ensures context.Some? ==> EngineOf(context.value) == FAudio && fresh(Obj(context.value))
      ensures context.Some? ==> StartsWith(context.value, r)
      ensures host.calls == old(host.calls) + CreateCalls(FAudio, r)
    {
      this.host := host;
      context := None;
      new;
      Setup(FAudio, r);
    }

    /**
      Replaces the held context by a newly created one of engine `kind`, which may
      be none; a context held before is dropped without being destroyed.
    */
    method Setup(kind: AudioEngine, r: CreateReplies)
      requires Creatable(r)
      modifies this`context, host
      ensures Valid()
      ensures context.Some? <==> r.engine.Some? && r.master.Some?
      ensures context.Some? ==> EngineOf(context.value) == kind && fresh(Obj(context.value))
      ensures context.Some? ==> StartsWith(context.value, r)
      ensures host.calls == old(host.calls) + CreateCalls(kind, r)
    {
      context := CreateContext(host, kind, r);
    }

    /**
      Destroys the held context, if any, and holds none afterwards; with none held
      nothing is called, so a second shutdown does nothing.
    */
    method Shutdown()
      requires Valid()
      modifies this`context, host
      ensures context.None? && Valid()
      ensures host.calls == old(host.calls) + if old(context).Some? then DestroyCalls(old(context).value) else []
    {
      if context.None? {
        return;
      }
      match context.value {
        case FAudioContext(f) => f.Destroy();
        case XAudioContext(x) => x.Destroy();
      }
      context := None;
    }

    /** Loads `sample` into the held context, if any. */
    method LoadWaveSample(sample: AudioSampleWave, r: LoadReplies)
      requires Valid()
      requires context.Some? ==> Loadable(r)
      modifies host, Objs(context)
      ensures Valid() && context == old(context)
      ensures context.None? ==> host.calls == old(host.calls)
      ensures context.Some? && context.value.FAudioContext? ==>
        var f := context.value.f;
        host.calls == old(host.calls) + FAudioBackend.LoadCalls(old(f.voice), sample, f.faudio, r, old(f.reverbEnabled), old(f.reverbParams))
      ensures context.Some? && context.value.XAudioContext? ==>
        var x := context.value.x;
        host.calls == old(host.calls) + XAudioBackend.LoadCalls(old(x.voice), sample, x.xaudio2, r, old(x.reverbEnabled), old(x.reverbParams))
      ensures context.Some? && context.value.FAudioContext? ==>
        var f := context.value.f;
        && f.voice == VoiceOf(r.voice)
        && (r.voice.None? ==> f.buffer == old(f.buffer) && f.silence == old(f.silence))
        && f.wavSamples == r.wave.samples && f.wavChannels == r.wave.channels && f.wavSampleRate == r.wave.sampleRate
        && f.wavSampleCount == |r.wave.samples| / r.wave.channels
        && f.reverbEnabled == old(f.reverbEnabled) && f.reverbParams == old(f.reverbParams)
        && (r.reverb.None? ==> f.reverbEffect == old(f.reverbEffect) && f.effectChain == old(f.effectChain))
        && (r.reverb.Some? ==> f.reverbEffect == ReverbDescriptor(f.reverbEnabled, f.wavChannels, r.reverb.value))
        && (r.reverb.Some? ==> f.effectChain == EffectChain(1, Some(f.reverbEffect)))
      ensures context.Some? && context.value.XAudioContext? ==>
        var x := context.value.x;
        && x.voice == VoiceOf(r.voice)
        && (r.voice.None? ==> x.buffer == old(x.buffer))
        && x.wavSamples == r.wave.samples && x.wavChannels == r.wave.channels && x.wavSampleRate == r.wave.sampleRate
        && x.wavSampleCount == |r.wave.samples| / r.wave.channels
        && x.reverbEnabled == old(x.reverbEnabled) && x.reverbParams == old(x.reverbParams)
        && (r.reverb.None? ==> x.reverbEffect == old(x.reverbEffect) && x.effectChain == old(x.effectChain))
        && (r.reverb.Some? ==> x.reverbEffect == ReverbDescriptor(x.reverbEnabled, x.wavChannels, r.reverb.value))
        && (r.reverb.Some? ==> x.effectChain == EffectChain(1, Some(x.reverbEffect)))
    {
      if context.None? {
        return;
      }
      match context.value {
        case FAudioContext(f) => f.WaveLoad(sample, r);
        case XAudioContext(x) => x.WaveLoad(sample, r);
      }
    }

    /** Plays the loaded sample of the held context, if any. */
    method PlayWave(r: PlayReplies)
      requires Valid() && (context.Some? ==> Voiced(context.value))
      modifies host
      ensures Valid()
      ensures context.None? ==> host.calls == old(host.calls)
      ensures context.Some? && context.value.FAudioContext? ==>
        var f := context.value.f;
        host.calls == old(host.calls) + Issue(f.voice.value.handle, FAudioBackend.PlayCalls(f.buffer, f.silence, r))
      ensures context.Some? && context.value.XAudioContext? ==>
        var x := context.value.x;
        host.calls == old(host.calls) + Issue(x.voice.value.handle, XAudioBackend.PlayCalls(x.buffer, r.contentAccepted))
    {
      if context.None? {
        return;
      }
      match context.value {
        case FAudioContext(f) => f.WavePlay(r);
        case XAudioContext(x) => x.WavePlay(r.contentAccepted);
      }
    }

    /** Changes the reverb of the held context, if any. */
    method ChangeEffect(enabled: bool, params: ReverbParams)
      requires Valid() && (context.Some? ==> Voiced(context.value))
      modifies host, Objs(context)
      ensures Valid() && context == old(context) && (context.Some? ==> Voiced(context.value))
      ensures context.None? ==> host.calls == old(host.calls)
      ensures context.Some? && context.value.FAudioContext? ==>
        var f := context.value.f;
        && f.reverbEnabled == enabled && f.reverbParams == params
        && host.calls == old(host.calls) + Issue(f.voice.value.handle, EffectChangeCalls(old(f.reverbEnabled), enabled, params, TestLayout))
      ensures context.Some? && context.value.XAudioContext? ==>
        var x := context.value.x;
        && x.reverbEnabled == enabled && x.reverbParams == params
        && host.calls == old(host.calls) + Issue(x.voice.value.handle, EffectChangeCalls(old(x.reverbEnabled), enabled, params, NativeLayout))
      ensures context.Some? && context.value.FAudioContext? ==>
        var f := context.value.f;
        unchanged(f`voice, f`buffer, f`silence, f`reverbEffect, f`effectChain)
        && unchanged(f`wavSamples, f`wavChannels, f`wavSampleRate, f`wavSampleCount)
      ensures context.Some? && context.value.XAudioContext? ==>
        var x := context.value.x;
        unchanged(x`voice, x`buffer, x`reverbEffect, x`effectChain)
        && unchanged(x`wavSamples, x`wavChannels, x`wavSampleRate, x`wavSampleCount)
    {
      if context.None? {
        return;
      }
      match context.value {
        case FAudioContext(f) => f.EffectChange(enabled, params);
        case XAudioContext(x) => x.EffectChange(enabled, params);
      }
    }

    /** Changes the reverb with a tunable test block: the same forwarding, under the
        same guard, as `ChangeEffect`. */
    method ChangeEffectTest(enabled: bool, params: ReverbParams)
      requires Valid() && (context.Some? ==> Voiced(context.value))
      modifies host, Objs(context)
      ensures Valid() && context == old(context) && (context.Some? ==> Voiced(context.value))
      ensures context.None? ==> host.calls == old(host.calls)
      ensures context.Some? && context.value.FAudioContext? ==>
        var f := context.value.f;
        && f.reverbEnabled == enabled && f.reverbParams == params
        && host.calls == old(host.calls) + Issue(f.voice.value.handle, EffectChangeCalls(old(f.reverbEnabled), enabled, params, TestLayout))
      ensures context.Some? && context.value.XAudioContext? ==>
        var x := context.value.x;
        && x.reverbEnabled == enabled && x.reverbParams == params
        && host.calls == old(host.calls) + Issue(x.voice.value.handle, EffectChangeCalls(old(x.reverbEnabled), enabled, params, NativeLayout))
      ensures context.Some? && context.value.FAudioContext? ==>
        var f := context.value.f;
        unchanged(f`voice, f`buffer, f`silence, f`reverbEffect, f`effectChain)
        && unchanged(f`wavSamples, f`wavChannels, f`wavSampleRate, f`wavSampleCount)
      ensures context.Some? && context.value.XAudioContext? ==>
        var x := context.value.x;
        unchanged(x`voice, x`buffer, x`reverbEffect, x`effectChain)
        && unchanged(x`wavSamples, x`wavChannels, x`wavSampleRate, x`wavSampleCount)
    {
      ChangeEffect(enabled, params);
    }
  }
}
