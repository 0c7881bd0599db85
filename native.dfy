/**
  A reference semantics for the native engine, against which the call sequences
  the backends issue are judged: which engines, mastering voices and source voices
  are alive, and for each source voice its buffer queue, whether it is started,
  and the state of the effect attached to it. Failed calls change nothing; the
  mixer consuming queued buffers is not modelled.
*/
module Native {
  import opened Audio

  /** The attached reverb: on or off, and the last parameter block pushed (None:
      the effect's own defaults). */
  datatype EffectState = EffectState(enabled: bool, params: Option<ReverbParams>)

  datatype VoiceState = VoiceState(queue: seq<BufferDesc>, running: bool, effect: Option<EffectState>)

  /** A voice just created: nothing queued, stopped, no effect attached. */
  const FreshVoice := VoiceState([], false, None)

  datatype World = World(engines: set<EngineHandle>, masters: set<VoiceHandle>, voices: map<VoiceHandle, VoiceState>)

  /** The effect of one call on a live source voice. */
  function Apply(v: VoiceState, c: VoiceCall): VoiceState
  {
    match c
    case SetEffectChain(chain, accepted) =>
      if accepted && chain.effectCount == 1 && chain.descriptor.Some? then
        v.(effect := Some(EffectState(chain.descriptor.value.initialState, None)))
      else v
    case SetEffectParams(p, _) =>
      if v.effect.Some? then v.(effect := Some(v.effect.value.(params := Some(p)))) else v
    case EnableEffect =>
      if v.effect.Some? then v.(effect := Some(v.effect.value.(enabled := true))) else v
    case DisableEffect =>
      if v.effect.Some? then v.(effect := Some(v.effect.value.(enabled := false))) else v
    case Stop => v.(running := false)
    // a started voice keeps the buffer it is playing; a stopped one drops everything
    case Flush => v.(queue := if v.running && v.queue != [] then v.queue[..1] else [])
    case Submit(b, accepted) => if accepted then v.(queue := v.queue + [b]) else v
    case Start => v.(running := true)
    case SetVolume(_) => v
    case SetFrequencyRatio(_) => v
    case DestroyVoice => v
  }

  /** The effect of a sequence of calls on one source voice. */
  function Run(v: VoiceState, cs: seq<VoiceCall>): VoiceState
    decreases |cs|
  {
    if cs == [] then v else Run(Apply(v, cs[0]), cs[1..])
  }

  /** The effect of one call on the world. */
  function Step(w: World, c: NativeCall): World
  {
    match c
    case CreateEngine(_, e) => if e.Some? then w.(engines := w.engines + {e.value}) else w
    case ReleaseEngine(e) => w.(engines := w.engines - {e})
    case CreateMasteringVoice(_, _, _, m) => if m.Some? then w.(masters := w.masters + {m.value}) else w
    case DestroyMasteringVoice(m) => w.(masters := w.masters - {m})
    case CreateSourceVoice(_, _, h) => if h.Some? then w.(voices := w.voices[h.value := FreshVoice]) else w
    case OnVoice(h, vc) =>
      if h !in w.voices then w
      else if vc.DestroyVoice? then w.(voices := w.voices - {h})
      else w.(voices := w.voices[h := Apply(w.voices[h], vc)])
    case CreateReverb(_) => w
    case ReleaseReverb(_) => w
    case DecodeFile(_) => w
    case FreeSamples => w
  }

  /** The effect of a sequence of calls on the world. */
  function Exec(w: World, cs: seq<NativeCall>): World
    decreases |cs|
  {
    if cs == [] then w else Exec(Step(w, cs[0]), cs[1..])
  }

  lemma {:induction false} ExecAppend(w: World, a: seq<NativeCall>, b: seq<NativeCall>)
    ensures Exec(w, a + b) == Exec(Exec(w, a), b)
    decreases |a|
  {
    if a != [] {
      assert (a + b)[0] == a[0];
      assert (a + b)[1..] == a[1..] + b;
      ExecAppend(Step(w, a[0]), a[1..], b);
    } else {
      assert a + b == b;
    }
  }

  lemma ExecSingle(w: World, c: NativeCall)
    ensures Exec(w, [c]) == Step(w, c)
  {
    assert [c][1..] == [];
  }

  /**
    Issuing calls on one live voice, none of which destroys it, changes only that
    voice, and changes it as `Run` says.
  */
  lemma {:induction false} ExecIssue(w: World, h: VoiceHandle, cs: seq<VoiceCall>)
    requires h in w.voices
    requires forall i :: 0 <= i < |cs| ==> !cs[i].DestroyVoice?
    ensures Exec(w, Issue(h, cs)) == w.(voices := w.voices[h := Run(w.voices[h], cs)])
    decreases |cs|
  {
    if cs == [] {
      assert w.voices[h := w.voices[h]] == w.voices;
    } else {
      var w1 := Step(w, OnVoice(h, cs[0]));
      assert Issue(h, cs)[0] == OnVoice(h, cs[0]);
      assert Issue(h, cs)[1..] == Issue(h, cs[1..]);
      ExecIssue(w1, h, cs[1..]);
      assert w1.voices[h := Run(w1.voices[h], cs[1..])] == w.voices[h := Run(w.voices[h], cs)];
    }
  }

  /** Destroying the previous voice, if any, removes it from the world. */
  lemma ExecDestroyVoiceCall(w: World, v: Option<AudioVoice>)
    ensures Exec(w, DestroyVoiceCall(v)) == if v.Some? then w.(voices := w.voices - {v.value.handle}) else w
  {
    if v.Some? {
      ExecSingle(w, OnVoice(v.value.handle, DestroyVoice));
      if v.value.handle !in w.voices {
        assert w.voices - {v.value.handle} == w.voices;
      }
    }
  }

  /** A created voice is live, fresh (nothing queued, stopped, no effect), and
      nothing else changes; a failed creation changes nothing. */
  lemma ExecCreateVoice(w: World, engine: EngineHandle, format: WaveFormat, created: Option<VoiceHandle>)
    ensures Exec(w, CreateVoiceCalls(engine, format, created))
              == if created.Some? then w.(voices := w.voices[created.value := FreshVoice]) else w
  {
    var c := CreateSourceVoice(engine, format, created);
    ExecSingle(w, c);
    if created.Some? {
      var h := created.value;
      assert CreateVoiceCalls(engine, format, created) == [c] + [OnVoice(h, SetVolume(UnitVolume))];
      ExecAppend(w, [c], [OnVoice(h, SetVolume(UnitVolume))]);
      ExecSingle(w.(voices := w.voices[h := FreshVoice]), OnVoice(h, SetVolume(UnitVolume)));
    }
  }

  /** The effect the load leaves attached to the new voice: present only when the
      reverb was created and the chain accepted, then in the context's state. */
  function AttachedEffect(r: LoadReplies, enabled: bool, params: ReverbParams): Option<EffectState>
  {
    if r.reverb.Some? && r.chainAccepted then Some(EffectState(enabled, Some(params))) else None
  }

  /** The native effect of voice `h` agrees with the context's flag and stored block. */
  predicate Mirrors(w: World, h: VoiceHandle, enabled: bool, params: ReverbParams)
  {
    h in w.voices && (w.voices[h].effect.Some? ==> w.voices[h].effect.value == EffectState(enabled, Some(params)))
  }

  /**
    The edge-triggered rule is sound: when the native effect mirrors the stored
    flag, one effect change leaves it in the requested state with the new block,
    whether or not a toggle was issued, and leaves queue and playback alone.
  */
  lemma EffectChangeReachesRequest(v: VoiceState, stored: bool, requested: bool, params: ReverbParams, layout: ParamsLayout)
    requires v.effect.Some? ==> v.effect.value.enabled == stored
    ensures Run(v, EffectChangeCalls(stored, requested, params, layout))
              == v.(effect := if v.effect.Some? then Some(EffectState(requested, Some(params))) else None)
  {
    var cs := EffectChangeCalls(stored, requested, params, layout);
    if stored == requested {
      assert cs == [SetEffectParams(params, layout)];
      assert cs[1..] == [];
    } else {
      var toggled := Apply(v, cs[0]);
      assert cs[1..] == [SetEffectParams(params, layout)];
      assert Run(v, cs) == Run(toggled, cs[1..]);
      assert cs[1..][1..] == [];
      assert Run(toggled, cs[1..]) == Apply(toggled, SetEffectParams(params, layout));
    }
  }

  /** Effect changes keep the context's flag and the native effect in agreement. */
  lemma EffectChangeKeepsMirror(w: World, h: VoiceHandle, stored: bool, q: ReverbParams, requested: bool, params: ReverbParams, layout: ParamsLayout)
    requires Mirrors(w, h, stored, q)
    ensures var w' := Exec(w, Issue(h, EffectChangeCalls(stored, requested, params, layout)));
      && Mirrors(w', h, requested, params)
      && w'.voices.Keys == w.voices.Keys
      && w'.voices[h].queue == w.voices[h].queue && w'.voices[h].running == w.voices[h].running
  {
    var cs := EffectChangeCalls(stored, requested, params, layout);
    ExecIssue(w, h, cs);
    EffectChangeReachesRequest(w.voices[h], stored, requested, params, layout);
  }

  /** The number of enable and disable calls among `cs`. */
  function Toggles(cs: seq<VoiceCall>): nat
    decreases |cs|
  {
    if cs == [] then 0
    else (if cs[0].EnableEffect? || cs[0].DisableEffect? then 1 else 0) + Toggles(cs[1..])
  }

  lemma {:induction false} TogglesAppend(a: seq<VoiceCall>, b: seq<VoiceCall>)
    ensures Toggles(a + b) == Toggles(a) + Toggles(b)
    decreases |a|
  {
    if a != [] {
      assert (a + b)[0] == a[0];
      assert (a + b)[1..] == a[1..] + b;
      TogglesAppend(a[1..], b);
    } else {
      assert a + b == b;
    }
  }

  /** The calls of consecutive effect changes that all request `requested`, one per
      block of `blocks`; after the first the stored flag equals the request. */
  function RepeatedChanges(stored: bool, requested: bool, blocks: seq<ReverbParams>, layout: ParamsLayout): seq<VoiceCall>
    decreases |blocks|
  {
    if blocks == [] then []
    else EffectChangeCalls(stored, requested, blocks[0], layout) + RepeatedChanges(requested, requested, blocks[1..], layout)
  }

  /**
    Repeating a request toggles the native effect at most once: one toggle if the
    first request changes the flag, none otherwise, however many changes follow.
  */
  lemma {:induction false} RepeatedChangesToggleOnce(stored: bool, requested: bool, blocks: seq<ReverbParams>, layout: ParamsLayout)
    ensures Toggles(RepeatedChanges(stored, requested, blocks, layout)) == if stored != requested && blocks != [] then 1 else 0
    decreases |blocks|
  {
    if blocks != [] {
      var first := EffectChangeCalls(stored, requested, blocks[0], layout);
      TogglesAppend(first, RepeatedChanges(requested, requested, blocks[1..], layout));
      RepeatedChangesToggleOnce(requested, requested, blocks[1..], layout);
      if stored == requested {
        assert first == [SetEffectParams(blocks[0], layout)];
        assert first[1..] == [];
      } else {
        assert first[1..][1..] == [];
      }
    }
  }
}
