# FAudioReverbDemo audio core in Dafny

This project models the audio core of FAudioReverbDemo, a small program that
plays a snare-drum sample through a reverb effect.

- **Backends.** There are two interchangeable backends, one over FAudio and one
  over XAudio2.
- **Audio context.** Each backend keeps an *audio context* that owns:
  - an engine and a mastering voice;
  - the decoded sample;
  - the current source voice with its buffer descriptors;
  - a reverb effect chain;
  - the reverb state: the stored parameter block and an on/off flag.
- **Operations.** The context loads a sample, plays it and changes the reverb.
- **Player.** `AudioPlayer` holds at most one context. It forwards each
  operation to that context and does nothing while it holds none.

How the model is built:

- **Native calls.** Everything the code asks of the native engine or the WAV
  decoder is recorded in the ghost trace `Host.calls`. What the engine answers
  comes in as a parameter:
  - a created handle, or `None` when creation failed;
  - whether a chain or a buffer was accepted;
  - what the decoder decoded.
- **Reference semantics.** Module `Native` gives the trace a reference semantics,
  `Exec` over a `World`. The world holds the live engines and mastering voices,
  and for each live source voice its queue, whether it is running and its
  attached effect.
- **Proofs.** The lemmas run each operation's calls through `Exec`. They show
  what a load, a play, an effect change, context creation and context
  destruction do to the world.
- **Modules.** `Audio` holds the shared vocabulary and descriptor arithmetic.
  `FAudioBackend` models `src/audio_faudio.cpp` and `XAudioBackend` models
  `src/audio_xaudio.cpp`; each has a class `AudioContext` with the context's
  fields. `Player` models `src/audio_player.h`.

Behaviour of the code that a reader may not expect, and that the model keeps:

- **Context destruction.** Neither backend destroys the source voice when the
  context is destroyed.
- **FAudio engine.** The FAudio backend does not release its engine, because
  the release call is commented out.
- **Silence tail.** The silence tail is always 96000 frames. It plays on the
  source voice at the sample's own rate, so it lasts two seconds only for a
  48 kHz sample.
- **Output channels.** The output is always two channels.
- **Load failures.** Decoding failures are not checked.
- **Creation order.** Context creation also loads the first sample.
- **Voice-less context.** A load in which neither the source voice nor the
  reverb is created completes: the reverb creation returns before it touches
  the voice. The context is then left without a voice, and with the buffer
  descriptors of the previous sample. Context creation returns such a context
  too.
- **FAudio byte rate.** The FAudio backend creates its source voice with the
  average byte rate the code writes, the sample rate times four, whatever the
  channel count. The FAudio model issues that format (`FormatAsWritten`); the
  XAudio2 model issues the rate times the block size (`FloatFormat`). See
  Findings.

## Model

| member | source | states |
|---|---|---|
| Audio.ContentBuffer | src/audio_faudio.cpp:67-77 | the content descriptor covers the decoded samples and plays them once to the end of the stream, with no loop |
| Audio.ContentBufferBytes | src/audio_xaudio.cpp:66-75 | when the byte count fits in 32 bits, it is 4 bytes per sample of every frame and agrees with the play length; when the frames are within the samples, it never reaches past the sample data |
| Audio.DecodedContentWithinSamples | src/audio_faudio.cpp:165-169 | the frame count of a load is total samples divided by channels; the descriptor covers whole frames only, stays within the samples and drops less than one frame |
| Audio.Silence | src/audio_faudio.cpp:80-85 | the silence tail is two seconds at 48 kHz of every channel, all zero |
| Audio.SilenceBuffer | src/audio_faudio.cpp:87-95 | the silence descriptor plays its data once to the end of the stream |
| Audio.SilenceBufferLength | src/audio_faudio.cpp:87-95 | the silence descriptor plays exactly 96000 frames, and its byte count is 4 bytes per sample when that fits |
| Audio.FloatFormat | src/audio_xaudio.cpp:48-55 | the voice format is 32-bit IEEE float with one float per channel per block, and the average byte rate is the sample rate times the block size |
| Audio.EffectChangeCalls | src/audio_faudio.cpp:187-199 | an enable is issued exactly on an off-to-on request, a disable exactly on an on-to-off request, and the parameter block is pushed last in every case |
| Native.EffectChangeReachesRequest | src/audio_xaudio.cpp:175-187 | when the native effect matches the stored flag, one change leaves it in the requested state with the new block, and queue and playback are untouched |
| Native.EffectChangeKeepsMirror | src/audio_faudio.cpp:183-200 | effect changes keep the stored flag and block in agreement with the native effect of the voice, and leave the set of live voices unchanged |
| Native.RepeatedChangesToggleOnce | src/audio_xaudio.cpp:171-188 | repeating the same request toggles the effect once if the first request changes the flag, and otherwise never |
| FAudioBackend.AudioContext.constructor | src/audio_faudio.cpp:230-238 | a new context has no voice and no samples, and its reverb is off with a zeroed block |
| FAudioBackend.AudioContext.Destroy | src/audio_faudio.cpp:40-45 | destruction destroys the mastering voice only |
| FAudioBackend.AudioContext.CreateVoice | src/audio_faudio.cpp:47-103 | on failure only the creation call is issued and the buffers keep their values; the creation call carries the format as the code fills it in, with byte rate sample rate times 4; on success the voice gets unit volume, the content descriptor covers the samples, and a zero-filled silence tail is described |
| FAudioBackend.AudioContext.ReverbSetParams | src/audio_faudio.cpp:105-113 | the stored block is pushed with the size of the test parameter struct |
| FAudioBackend.AudioContext.CreateReverb | src/audio_faudio.cpp:115-137 | if reverb creation fails nothing else happens and the voice, which may be absent, is not touched; otherwise the descriptor takes the stored flag and the sample's channel count, the chain holds exactly that descriptor, the chain is set without checking the result, and the block is pushed |
| FAudioBackend.AudioContext.VoiceDestroy | src/audio_faudio.cpp:139-142 | destroys the source voice |
| FAudioBackend.AudioContext.VoiceSetVolume | src/audio_faudio.cpp:144-147 | passes the volume to the source voice |
| FAudioBackend.AudioContext.VoiceSetFrequency | src/audio_faudio.cpp:149-152 | passes the frequency ratio to the source voice |
| FAudioBackend.AudioContext.ReadSample | src/audio_faudio.cpp:161-167 | the decoded samples, channels and rate are stored, and the sample count becomes total samples divided by channels |
| FAudioBackend.AudioContext.WaveLoad | src/audio_faudio.cpp:154-171 | the previous voice is destroyed before decoding; afterwards the decoded samples, channels, rate and frame count are stored, the new voice, or none if its creation failed, is current, the buffers change only with a new voice, the reverb flag and block are kept, the descriptor and chain are rebuilt only when the reverb is created, and the trace is destroy, decode, create voice with the format as written (byte rate sample rate times 4), attach reverb |
| FAudioBackend.AudioContext.WavePlay | src/audio_faudio.cpp:173-181 | issues stop, flush, submit content, submit silence and start, in that order, ignoring the results |
| FAudioBackend.AudioContext.EffectChange | src/audio_faudio.cpp:183-200 | the stored flag and block become the requested ones, and the calls are the edge-triggered toggle followed by the push |
| FAudioBackend.CreateContext | src/audio_faudio.cpp:202-244 | returns no context exactly when the engine or the mastering voice fails; otherwise it returns a fresh context holding the given engine and mastering voice, with the first sample's samples, channels and rate stored, its voice current (none if the first load created none), the effect descriptor and chain, if the reverb was created, built for its channel count in the off state, and the stored flag off with a zeroed block |
| FAudioBackend.ReverbAttaches | src/audio_faudio.cpp:115-137 | on a fresh voice, the reverb calls attach the effect in the stored state and block when both the effect and the chain succeed, and otherwise attach nothing |
| FAudioBackend.LoadReplacesVoice | src/audio_faudio.cpp:154-171 | a load removes the previous voice and adds the new voice, if created, stopped, with nothing queued and the effect mirroring the stored state; everything else stays as it was |
| FAudioBackend.PlayQueuesContentThenSilence | src/audio_faudio.cpp:173-181 | after a play the voice is running, and exactly the accepted buffers are queued, content before silence |
| FAudioBackend.CreateContextOpens | src/audio_faudio.cpp:217-241 | a created engine stays live even when the mastering voice fails; on success the mastering voice is live, and so is the first voice if it was created |
| FAudioBackend.DestroyLeavesEngineAndVoice | src/audio_faudio.cpp:40-45 | after creating and destroying a context, its engine and its source voice, if created, are still live, and only the mastering voice is gone |
| FAudioBackend.FormatAsWritten | src/audio_faudio.cpp:50-57 | the format as the code fills it in: the average byte rate is the sample rate times 4, whatever the channel count |
| FAudioBackend.FormatAsWrittenUnderstatesByteRate | src/audio_faudio.cpp:54-55 | with two or more channels the written byte rate is less than rate times block size; at 48 kHz stereo it is 192000 instead of 384000; with one channel the two formats agree |
| XAudioBackend.AudioContext.constructor | src/audio_xaudio.cpp:220-226 | a new context has no voice and no samples, and its reverb is off with preset 0 |
| XAudioBackend.AudioContext.Destroy | src/audio_xaudio.cpp:38-43 | destroys the mastering voice, then releases the engine |
| XAudioBackend.AudioContext.CreateVoice | src/audio_xaudio.cpp:45-82 | on failure only the creation call is issued; on success the voice gets unit volume and the content descriptor covers the samples |
| XAudioBackend.AudioContext.ReverbSetParams | src/audio_xaudio.cpp:84-93 | the stored block is pushed with the size of the native reverb parameter struct |
| XAudioBackend.AudioContext.CreateReverb | src/audio_xaudio.cpp:95-120 | if reverb creation fails nothing else happens and the voice, which may be absent, is not touched; if the chain is rejected, nothing happens after it; only when the chain is accepted is the effect reference released and the block pushed |
| XAudioBackend.AudioContext.VoiceDestroy | src/audio_xaudio.cpp:122-126 | frees the decoded samples, then destroys the source voice |
| XAudioBackend.AudioContext.VoiceSetVolume | src/audio_xaudio.cpp:128-131 | passes the volume to the source voice |
| XAudioBackend.AudioContext.VoiceSetFrequency | src/audio_xaudio.cpp:133-136 | passes the frequency ratio to the source voice |
| XAudioBackend.AudioContext.ReadSample | src/audio_xaudio.cpp:145-151 | the decoded samples, channels and rate are stored, and the sample count becomes total samples divided by channels |
| XAudioBackend.AudioContext.WaveLoad | src/audio_xaudio.cpp:138-155 | the previous voice is destroyed before decoding; afterwards the decoded samples, channels, rate and frame count are stored, the new voice, or none if its creation failed, is current, the buffer changes only with a new voice, the reverb flag and block are kept, the descriptor and chain are rebuilt only when the reverb is created, and the trace is destroy, decode, create voice with byte rate sample rate times block size, attach reverb |
| XAudioBackend.AudioContext.WavePlay | src/audio_xaudio.cpp:157-169 | issues stop, flush and submit content, then start only if the engine accepted the content |
| XAudioBackend.AudioContext.EffectChange | src/audio_xaudio.cpp:171-188 | the stored flag and block become the requested ones, and the calls are the edge-triggered toggle followed by the push |
| XAudioBackend.CreateContext | src/audio_xaudio.cpp:191-232 | returns no context exactly when the engine or the mastering voice fails; otherwise it returns a fresh context holding the given engine and mastering voice, with the first sample's samples, channels and rate stored, its voice current (none if the first load created none), the effect descriptor and chain, if the reverb was created, built for its channel count in the off state, and the stored flag off with preset 0 |
| XAudioBackend.ReverbAttaches | src/audio_xaudio.cpp:95-120 | on a fresh voice, the effect is attached in the stored state and block exactly when the effect and the chain succeed, and the effect reference is released exactly then |
| XAudioBackend.LoadReplacesVoice | src/audio_xaudio.cpp:138-155 | a load removes the previous voice and adds the new voice, if created, stopped, with nothing queued and the effect mirroring the stored state; everything else stays as it was |
| XAudioBackend.PlayQueuesContent | src/audio_xaudio.cpp:157-169 | after a play the voice is running with only the content queued if the content was accepted, and otherwise stopped with nothing queued |
| XAudioBackend.CreateContextOpens | src/audio_xaudio.cpp:205-229 | a created engine stays live even when the mastering voice fails; on success the mastering voice is live, and so is the first voice if it was created |
| XAudioBackend.DestroyReleasesEngineNotVoice | src/audio_xaudio.cpp:38-43 | after creating and destroying a context, its engine and its mastering voice are gone but its source voice, if created, is still live |
| Player.CreateContext | src/audio.h:59 | creates a context of the requested engine: none exactly when engine or mastering voice fails, otherwise a fresh, usable context holding the given engine and mastering voice, with the first sample's samples, channels and rate stored, its voice current (none if the first load created none), the effect descriptor and chain, if the reverb was created, built for its channel count in the off state, and the stored flag off with the backend's initial block |
| Player.AudioPlayer.constructor | src/audio_player.h:9-12 | a new player is set up with the FAudio engine: it holds a context exactly when engine and mastering voice succeed, and that context starts with the first sample's samples, channels and rate stored, its voice (none if the first load created none), the reverb off and a zeroed block |
| Player.AudioPlayer.Setup | src/audio_player.h:14-17 | the held context is replaced by the new one, which may be none and otherwise holds the first sample and starts in the backend's initial reverb state; only creation calls are issued, so a previously held context is not destroyed |
| Player.AudioPlayer.Shutdown | src/audio_player.h:19-26 | afterwards no context is held; with none held nothing is called, otherwise the held context is destroyed exactly once |
| Player.AudioPlayer.LoadWaveSample | src/audio_player.h:28-34 | does nothing without a context; otherwise it issues exactly that backend's load and leaves the context in the state that load promises: new voice or none, buffers kept when there is none, stored sample, reverb flag and block kept |
| Player.AudioPlayer.PlayWave | src/audio_player.h:36-42 | does nothing without a context; otherwise, the context having a voice, it issues exactly that backend's play |
| Player.AudioPlayer.ChangeEffect | src/audio_player.h:44-50 | does nothing without a context; otherwise, the context having a voice, it performs exactly that backend's effect change: flag and block become the requested ones, while voice, buffers, stored sample and effect descriptors stay as they were |
| Player.AudioPlayer.ChangeEffectTest | src/audio_player.h:52-58 | the same guard, forwarding and resulting state as `ChangeEffect`: the requested flag and block, everything else in the context unchanged |

## Left out

- **Native engines and the decoder.** FAudio, XAudio2, COM reference counting
  and dr_wav are foreign code. Their effects are the reference semantics in
  `Native`. Only the results of creation calls, `SetEffectChain` and `Submit`
  are parameters; enabling, disabling, pushing parameters, stopping, flushing
  and starting always succeed in the model. The code ignores those results too.
- Native.EffectChangeReachesRequest and Native.EffectChangeKeepsMirror assume an
  engine that honours every toggle. If an enable or disable fails, the code
  still stores the requested flag, so a repeated identical request issues no
  toggle and the native effect stays out of step (src/audio_faudio.cpp:189-196,
  src/audio_xaudio.cpp:177-184). The model does not represent that failure.
- **Mixer.** The mixer thread and its consumption of queued buffers are not
  modelled. A queued buffer stays queued until a stop and flush.
- **Buffer lifetime.** The model does not track which sample memory is alive.
  `FreeSamples` is only recorded, in the order the code issues it. The XAudio
  backend frees the samples before destroying the voice that may still be
  reading them. The model records that order but does not judge it.
- **Sample values.** Samples are reals. Only their count and the zero fill of
  the silence tail matter. Volume and frequency ratios are passed through
  unchanged.
- **Reverb parameter layout.** The byte layout of the reverb parameter blocks is
  not modelled, and the I3DL2-to-native conversion is commented out in the code.
  A block is a symbolic value; only which struct's size accompanies it is
  recorded.
  - The FAudio effect change copies a test-sized block from a pointer typed for
    the smaller I3DL2 block. The model cannot see that over-read.
- Player.AudioPlayer.ChangeEffectTest: on the XAudio2 backend the test block is
  passed as a `ReverbParameters` pointer (src/audio_player.h:57), and only that
  prefix of it is stored (src/audio_xaudio.cpp:186). The model stores the whole
  symbolic block.
- **Format field widths.** Wave-format fields are unbounded naturals. Only
  `AudioBytes` and `PlayLength` are truncated to 32 bits, as their fields are.
  The silence length `silence_len` (src/audio_faudio.cpp:80) is computed as
  `2 * 48000 * p_num_channels` in a signed 32-bit `int`, which overflows from
  22370 channels upward; `Audio.Silence` uses an unbounded length.
- **Crash paths.** Inputs on which the code dereferences a null pointer or
  divides by zero become preconditions:
  - a load whose voice creation fails but whose reverb creation succeeds sets
    the chain through the null voice, so `Loadable` asks for a voice whenever
    the reverb exists; a load in which both fail is modelled;
  - a decoded channel count of zero would be divided by, so `Loadable` asks for
    at least one channel;
  - play and effect change go through the voice (src/audio_faudio.cpp:175, 189,
    112; src/audio_xaudio.cpp:159, 177, 182), so the backends' `WavePlay` and
    `EffectChange` require one.
- Player.AudioPlayer.PlayWave, Player.AudioPlayer.ChangeEffect and
  Player.AudioPlayer.ChangeEffectTest require the held context, if any, to have
  a voice (`Voiced`). The code would dereference a null voice there, after a
  load that created neither voice nor reverb.
- **Player.AudioPlayer.Shutdown.** It requires the player invariant `Valid`.
  That invariant is what ties the held context to the player's host.
- **Dispatch.** Each backend's create function first points the global
  function-pointer table at its own operations (src/audio_faudio.cpp:205-214,
  src/audio_xaudio.cpp:194-203), before the engine is created, so even a failed
  creation rebinds it. The model has no table: the `Player.Context` tag stands
  for it. The dispatch on the engine is modelled by `Player.CreateContext`; its
  implementation in `src/audio.cpp` is not part of this model, and is assumed
  to pick the backend by the requested engine.
- **GUI.** The GUI in `src/main_gui.cpp` is not part of this model.

## Findings

| source | as written | input that shows it | evidently intended | confidence | as-written member | corrected member |
|---|---|---|---|---|---|---|
| src/audio_faudio.cpp:54 | `nAvgBytesPerSec = p_sample_rate * 4`, which ignores the channel count | a stereo sample at 48000 Hz: the declared byte rate is 192000, but its 8-byte blocks make 384000 bytes per second | sample rate times block alignment, as the XAudio2 backend computes it (src/audio_xaudio.cpp:53) | not executed | FAudioBackend.FormatAsWrittenUnderstatesByteRate | Audio.FloatFormat |
