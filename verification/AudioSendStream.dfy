/** The send and receive streams as objects that are updated in place, each
    method proved against the value-level specification of its operation. A
    method that can be stopped by a failed check says so in `completed`. */
module AudioStreams {
  import opened Common
  import opened HeaderExtensionMap
  import opened SendStreamSpec
  import SendStreamFresh
  import SendStreamBitrates
  import AudioStates

  class BitrateAllocator {
    var observers: map<nat, Allocation>

    constructor ()
      ensures observers == map[]
    {
      observers := map[];
    }

    /** Updates the settings of a known observer, and adds an unknown one. */
    method AddObserver(id: nat, allocation: Allocation)
      modifies this
      ensures observers == old(observers)[id := allocation]
    {
      observers := observers[id := allocation];
    }

    method RemoveObserver(id: nat)
      modifies this
      ensures observers == old(observers) - {id}
    {
      observers := observers - {id};
    }
  }

  class AudioSendStream {
    const id: nat
    const settings: Settings
    const audioState: AudioStates.AudioState
    const bitrateAllocator: BitrateAllocator
    var config: Config
    var sending: bool
    var encoder: AudioStates.Properties
    var transportOverheadPerPacket: nat
    var overheadPerPacket: nat
    var registeredWithAllocator: bool
    var frameLengthRange: Option<FrameLengths>
    var bitrateRange: Option<Rates>
    var channel: Channel
    var rtp: Rtp
    ghost var history: seq<Config>
    ghost var answers: seq<Option<AudioStates.Properties>>
    ghost var startedAt: nat
    ghost var registeredWith: Ranges

    ghost function View(): Stream
      reads this
    {
      Stream(id, settings, config, sending, encoder, transportOverheadPerPacket, overheadPerPacket,
             registeredWithAllocator, frameLengthRange, bitrateRange, channel, rtp, history,
             answers, startedAt, registeredWith)
    }

    ghost function InScene(): Scene
      reads this, audioState, audioState.audioTransport, bitrateAllocator
    {
      Scene(View(), audioState.View(), bitrateAllocator.observers)
    }

    /** The channel is constructed with the frame encryptor, the frame transformer
        and the extmap flag of the configuration. */
    constructor (id: nat, settings: Settings, audioState: AudioStates.AudioState, bitrateAllocator: BitrateAllocator,
                 c: Config)
      ensures this.audioState == audioState && this.bitrateAllocator == bitrateAllocator
      ensures View() == NewStream(id, settings, c)
    {
      this.id, this.settings, this.audioState, this.bitrateAllocator := id, settings, audioState, bitrateAllocator;
      config, sending, encoder := DEFAULT_CONFIG, false, AudioStates.Properties(0, 0);
      transportOverheadPerPacket, overheadPerPacket, registeredWithAllocator := 0, 0, false;
      frameLengthRange, bitrateRange := None, None;
      channel := Channel("", c.frameEncryptor, c.frameTransformer, [], false, false, false, 0, None);
      rtp := Rtp(map[], c.extmapAllowMixed, "", false);
      history, answers, startedAt, registeredWith := [], [], 0, Ranges(None, None);
    }

    /** Constructs the stream and configures it for the first time. */
    static method Create(id: nat, settings: Settings, audioState: AudioStates.AudioState,
                         bitrateAllocator: BitrateAllocator, c: Config, env: Env)
      returns (stream: AudioSendStream, completed: bool)
      modifies audioState, audioState.audioTransport, bitrateAllocator
      ensures fresh(stream) && stream.audioState == audioState && stream.bitrateAllocator == bitrateAllocator
      ensures var spec := SendStreamFresh.Construct(id, settings, c, env, old(audioState.View()),
                                                    old(bitrateAllocator.observers));
              completed == spec.Some? && (completed ==> stream.InScene() == spec.value)
    {
      stream := new AudioSendStream(id, settings, audioState, bitrateAllocator, c);
      var ok;
      completed, ok := stream.ConfigureStream(c, true, env);
    }

    // ---------------------------------------------------------------------- bitrates

    method GetMinMaxBitrateConstraints() returns (r: Option<Rates>)
      ensures r == Constraints(View())
      ensures r.Some? <==> SendStreamBitrates.HasLimits(View(), Ranges(frameLengthRange, bitrateRange))
      ensures r.Some? ==> SendStreamBitrates.AreLimits(View(), Ranges(frameLengthRange, bitrateRange), r.value)
    {
      SendStreamBitrates.LimitsExactly(View(), Ranges(frameLengthRange, bitrateRange));
      if config.minBitrateBps < 0 || config.maxBitrateBps < 0 {
        return None;
      }
      var constraints := Rates(config.minBitrateBps, config.maxBitrateBps);
      if settings.minBitrate.Some? {
        constraints := constraints.(min := settings.minBitrate.value);
      }
      if settings.maxBitrate.Some? {
        constraints := constraints.(max := settings.maxBitrate.value);
      }
      if bitrateRange.Some? {
        constraints := constraints.(min := bitrateRange.value.min);
        constraints := constraints.(max := bitrateRange.value.max);
      }
      if constraints.max < constraints.min {
        return None;
      }
      if settings.legacyOverhead {
        var minOverhead := LEGACY_MIN_OVERHEAD;
        constraints := constraints.(min := constraints.min + minOverhead);
        constraints := constraints.(max := constraints.max + minOverhead);
      } else {
        if frameLengthRange.None? {
          return None;
        }
        constraints := constraints.(min := constraints.min + Rate(overheadPerPacket, frameLengthRange.value.longest));
        constraints := constraints.(max := constraints.max + Rate(overheadPerPacket, frameLengthRange.value.shortest));
      }
      r := Some(constraints);
    }

    method OnBitrateUpdated(target: int)
      modifies this`channel
      ensures View() == BitrateUpdated(old(View()), target)
    {
      var forwarded := target;
      var constraints := GetMinMaxBitrateConstraints();
      if constraints.Some? {
        forwarded := Max(constraints.value.min, Min(forwarded, constraints.value.max));
      }
      channel := channel.(target := Some(forwarded));
    }

    method ConfigureBitrateObserver(granted: int) returns (completed: bool)
      modifies this, bitrateAllocator
      ensures var spec := ConfigureObserver(old(InScene()), granted);
              completed == spec.Some? && (completed ==> InScene() == spec.value)
    {
      var constraints := GetMinMaxBitrateConstraints();
      if constraints.None? {
        return false;
      }
      var priorityBitrate := settings.priorityBitrate;
      if settings.legacyOverhead {
        priorityBitrate := priorityBitrate + LEGACY_MAX_OVERHEAD;
      } else {
        priorityBitrate := priorityBitrate + Rate(overheadPerPacket, frameLengthRange.value.longest);
      }
      if settings.priorityBitrateRaw.Some? {
        priorityBitrate := settings.priorityBitrateRaw.value;
      }
      if !settings.enablePriority {
        priorityBitrate := 0;
      }
      var bitratePriority := if settings.bitratePriority.Some? then settings.bitratePriority.value
                             else config.bitratePriority;
      var allocation := Allocation(constraints.value.min, constraints.value.max, priorityBitrate, bitratePriority);
      assert allocation == AllocationFor(View());
      bitrateAllocator.AddObserver(id, allocation);
      OnBitrateUpdated(granted);
      registeredWithAllocator := true;
      registeredWith := Ranges(frameLengthRange, bitrateRange);
      completed := true;
    }

    method RemoveBitrateObserver()
      modifies this, bitrateAllocator
      ensures InScene() == RemoveObserver(old(InScene()))
    {
      registeredWithAllocator := false;
      bitrateAllocator.RemoveObserver(id);
    }

    method UpdateOverheadPerPacket(rtpOverhead: nat, granted: int) returns (completed: bool)
      modifies this, bitrateAllocator
      ensures var spec := UpdateOverhead(old(InScene()), rtpOverhead, granted);
              completed == spec.Some? && (completed ==> InScene() == spec.value)
    {
      var overhead := transportOverheadPerPacket + rtpOverhead;
      if overheadPerPacket == overhead {
        return true;
      }
      overheadPerPacket := overhead;
      if registeredWithAllocator {
        completed := ConfigureBitrateObserver(granted);
        if !completed {
          return;
        }
      }
      channel := channel.(packetOverhead := overhead);
      completed := true;
    }

    method SetTransportOverheadPerPacket(bytes: nat, env: Env) returns (completed: bool)
      modifies this, bitrateAllocator
      ensures var spec := SetTransportOverhead(old(InScene()), bytes, env);
              completed == spec.Some? && (completed ==> InScene() == spec.value)
    {
      transportOverheadPerPacket := bytes;
      completed := UpdateOverheadPerPacket(env.rtpOverhead, env.granted);
    }

    method ReconfigureBitrateObserver(c: Config, granted: int) returns (completed: bool)
      modifies this, bitrateAllocator
      ensures var spec := ReconfigureObserver(old(InScene()), c, granted);
              completed == spec.Some? && (completed ==> InScene() == spec.value)
    {
      if ObserverUnchanged(config, c) {
        return true;
      }
      if Allocatable(c) {
        completed := RegisterWithNewLimits(c, granted);
      } else {
        RemoveBitrateObserver();
        MarkPartOfAllocation(false);
        completed := true;
      }
    }

    method RegisterWithNewLimits(c: Config, granted: int) returns (completed: bool)
      modifies this, bitrateAllocator
      ensures var spec := Reregister(old(InScene()), c, granted);
              completed == spec.Some? && (completed ==> InScene() == spec.value)
    {
      ghost var before := InScene();
      config := config.(minBitrateBps := c.minBitrateBps, maxBitrateBps := c.maxBitrateBps,
                        bitratePriority := c.bitratePriority);
      ghost var limited := InScene();
      assert limited == before.(stream := WithLimits(before.stream, c));
      completed := ConfigureBitrateObserver(granted);
      if completed {
        MarkPartOfAllocation(true);
      }
    }

    method MarkPartOfAllocation(part: bool)
      modifies this`rtp
      ensures InScene() == SetPartOfAllocation(old(InScene()), part)
    {
      rtp := rtp.(partOfAllocation := part);
    }

    // ------------------------------------------------------------------------- codec

    method StoreEncoderProperties(p: AudioStates.Properties, reply: AudioStates.Reply)
      modifies this, audioState, audioState.audioTransport
      ensures InScene() == StoreEncoder(old(InScene()), p, reply)
    {
      encoder := p;
      if sending {
        audioState.AddSendingStream(id, p, reply);
      }
    }

    /** False when the factory cannot create the encoder; nothing changes then. */
    method ReconfigureSendCodec(c: Config, created: Option<AudioStates.Properties>, reply: AudioStates.Reply)
      returns (ok: bool)
      modifies this, audioState, audioState.audioTransport
      ensures ok <==> (NeedsEncoder(old(config), c) ==> created.Some?)
      ensures InScene() == ConfigureCodec(old(InScene()), c, created, reply)
    {
      if c.codec.None? {
        return true;
      }
      if c.codec == config.codec && c.networkAdaptor == config.networkAdaptor {
        return true;
      }
      if config.codec.None? || c.codec.value.format != config.codec.value.format
         || c.codec.value.payloadType != config.codec.value.payloadType
         || c.codec.value.redPayloadType != config.codec.value.redPayloadType {
        if created.None? {
          return false;
        }
        StoreEncoderProperties(created.value, reply);
        channel := channel.(hasEncoder := true);
      }
      ok := true;
    }

    // -------------------------------------------------------------------- extensions

    /** Stops the program when the registration is refused. */
    method RegisterRtpHeaderExtension(t: ExtensionType, extensionId: int) returns (completed: bool)
      modifies this`rtp
      ensures completed == Register(old(rtp).ids, t, extensionId).Some?
      ensures rtp == if completed then old(rtp).(ids := Register(old(rtp).ids, t, extensionId).value) else old(rtp)
    {
      var registered := Register(rtp.ids, t, extensionId);
      if registered.None? {
        return false;
      }
      rtp := rtp.(ids := registered.value);
      completed := true;
    }

    method UpdateAudioLevel(c: Config, first: bool) returns (completed: bool)
      modifies this`rtp, this`channel
      ensures var ch := Change(config, c, first, settings.withoutFeedback);
              && completed == Update(old(rtp).ids, ch, AudioLevel).Some?
              && (completed ==>
                    && rtp == old(rtp).(ids := Update(old(rtp).ids, ch, AudioLevel).value)
                    && channel == old(channel).(includeAudioLevel :=
                                    if Touched(ch, AudioLevel) then c.ids.audioLevel != 0
                                    else old(channel).includeAudioLevel))
    {
      if first || c.ids.audioLevel != config.ids.audioLevel {
        channel := channel.(includeAudioLevel := c.ids.audioLevel != 0);
        if c.ids.audioLevel != 0 {
          completed := RegisterRtpHeaderExtension(AudioLevel, c.ids.audioLevel);
          return;
        }
        rtp := rtp.(ids := Deregister(rtp.ids, AudioLevel));
      }
      completed := true;
    }

    method UpdateTime(t: ExtensionType, c: Config, first: bool) returns (completed: bool)
      requires t == AbsSendTime || t == AbsCaptureTime
      modifies this`rtp
      ensures var ch := Change(config, c, first, settings.withoutFeedback);
              && completed == Update(old(rtp).ids, ch, t).Some?
              && (completed ==> rtp == old(rtp).(ids := Update(old(rtp).ids, ch, t).value))
    {
      if first || IdOf(c.ids, t) != IdOf(config.ids, t) {
        rtp := rtp.(ids := Deregister(rtp.ids, t));
        if IdOf(c.ids, t) != 0 {
          completed := RegisterRtpHeaderExtension(t, IdOf(c.ids, t));
          return;
        }
      }
      completed := true;
    }

    method UpdateTransportSequenceNumber(c: Config, first: bool) returns (completed: bool)
      modifies this`rtp
      ensures var ch := Change(config, c, first, settings.withoutFeedback);
              && completed == Update(old(rtp).ids, ch, TransportSequenceNumber).Some?
              && (completed ==> rtp == old(rtp).(ids := Update(old(rtp).ids, ch, TransportSequenceNumber).value))
    {
      var idChanged := c.ids.transportSequenceNumber != config.ids.transportSequenceNumber;
      if first || (idChanged && !settings.withoutFeedback) {
        if !settings.withoutFeedback && c.ids.transportSequenceNumber != 0 {
          completed := RegisterRtpHeaderExtension(TransportSequenceNumber, c.ids.transportSequenceNumber);
          return;
        }
      }
      completed := true;
    }

    method UpdateMid(c: Config, first: bool) returns (completed: bool)
      modifies this`rtp
      ensures var ch := Change(config, c, first, settings.withoutFeedback);
              && completed == Update(old(rtp).ids, ch, Mid).Some?
              && (completed ==>
                    rtp == old(rtp).(ids := Update(old(rtp).ids, ch, Mid).value,
                                     mid := if Touched(ch, Mid) then c.mid else old(rtp).mid))
    {
      if (first || c.ids.mid != config.ids.mid || c.mid != config.mid) && c.ids.mid != 0 && c.mid != "" {
        completed := RegisterRtpHeaderExtension(Mid, c.ids.mid);
        if !completed {
          return;
        }
        rtp := rtp.(mid := c.mid);
      }
      completed := true;
    }

    method UpdateHeaderExtensions(c: Config, first: bool) returns (completed: bool)
      modifies this`rtp, this`channel
      ensures var spec := ConfigureExtensions(old(View()), c, first);
              completed == spec.Some? && (completed ==> View() == spec.value)
    {
      LastTurns(rtp.ids, Change(config, c, first, settings.withoutFeedback));
      completed := UpdateLevelAndSendTime(c, first);
      if !completed {
        return;
      }
      completed := UpdateTransportSequenceNumber(c, first);
      if !completed {
        return;
      }
      completed := UpdateMid(c, first);
      if !completed {
        return;
      }
      completed := UpdateTime(AbsCaptureTime, c, first);
    }

    method UpdateLevelAndSendTime(c: Config, first: bool) returns (completed: bool)
      modifies this`rtp, this`channel
      ensures var ch := Change(config, c, first, settings.withoutFeedback);
              var ids := UpdateFirst(2, old(rtp).ids, ch);
              && completed == ids.Some?
              && (completed ==>
                    && rtp == old(rtp).(ids := ids.value)
                    && channel == old(channel).(includeAudioLevel :=
                                    if Touched(ch, AudioLevel) then c.ids.audioLevel != 0
                                    else old(channel).includeAudioLevel))
    {
      FirstTurns(rtp.ids, Change(config, c, first, settings.withoutFeedback));
      completed := UpdateAudioLevel(c, first);
      if !completed {
        return;
      }
      completed := UpdateTime(AbsSendTime, c, first);
    }

    // ----------------------------------------------------------------- configuration

    method UpdateFrameHooks(c: Config, first: bool)
      modifies this`channel
      ensures channel == old(channel).(
                frameEncryptor := if first || c.frameEncryptor != config.frameEncryptor then c.frameEncryptor
                                  else old(channel).frameEncryptor,
                frameTransformer :=
                  if (first || c.frameTransformer != config.frameTransformer) && c.frameTransformer != 0
                  then c.frameTransformer else old(channel).frameTransformer)
    {
      if first || c.frameEncryptor != config.frameEncryptor {
        channel := channel.(frameEncryptor := c.frameEncryptor);
      }
      if first || c.frameTransformer != config.frameTransformer {
        SetEncoderToPacketizerFrameTransformer(c.frameTransformer);
      }
    }

    /** The channel does nothing when there is no transformer. */
    method SetEncoderToPacketizerFrameTransformer(transformer: nat)
      modifies this`channel
      ensures channel == if transformer == 0 then old(channel) else old(channel).(frameTransformer := transformer)
    {
      if transformer == 0 {
        return;
      }
      channel := channel.(frameTransformer := transformer);
    }

    method UpdateSources(c: Config, first: bool)
      modifies this`channel, this`rtp
      ensures channel == old(channel).(
                csrcs := if first || c.csrcs != config.csrcs then CsrcLimit(c.csrcs) else old(channel).csrcs)
      ensures rtp == old(rtp).(
                extmapAllowMixed := if first || c.extmapAllowMixed != config.extmapAllowMixed then c.extmapAllowMixed
                                    else old(rtp).extmapAllowMixed)
    {
      if first || c.extmapAllowMixed != config.extmapAllowMixed {
        rtp := rtp.(extmapAllowMixed := c.extmapAllowMixed);
      }
      if first || c.csrcs != config.csrcs {
        channel := channel.(csrcs := CsrcLimit(c.csrcs));
      }
    }

    method UpdateChannel(c: Config, first: bool)
      modifies this`channel, this`rtp
      ensures View() == ConfigureChannel(old(View()), c, first)
    {
      if first || config.cName != c.cName {
        channel := channel.(cName := CnameLimit(c.cName));
      }
      UpdateFrameHooks(c, first);
      UpdateSources(c, first);
    }

    /** `ok` is what the caller's callback is told. */
    method ConfigureStream(c: Config, first: bool, env: Env) returns (completed: bool, ok: bool)
      modifies this, audioState, audioState.audioTransport, bitrateAllocator
      ensures var spec := Configure(old(InScene()), c, first, env);
              completed == spec.Some? && (completed ==> InScene() == spec.value)
      ensures completed ==> (ok <==> (NeedsEncoder(old(config), c) ==> env.created.Some?))
    {
      ok := false;
      UpdateChannel(c, first);
      completed := UpdateHeaderExtensions(c, first);
      if !completed {
        return;
      }
      ghost var extended := InScene();
      ok := ReconfigureSendCodec(c, env.created, env.reply);
      ghost var coded := InScene();
      assert coded == ConfigureCodec(extended, c, env.created, env.reply);
      completed := UpdateOverheadPerPacket(env.rtpOverhead, env.granted);
      if !completed {
        return;
      }
      completed := ConfigureRates(c, env);
    }

    /** The end of a configuration: the encoder's ranges, the bitrate observer,
        and then the configuration itself. */
    method ConfigureRates(c: Config, env: Env) returns (completed: bool)
      modifies this, bitrateAllocator
      ensures var spec := FinishConfigure(old(InScene()), c, env);
              completed == spec.Some? && (completed ==> InScene() == spec.value)
    {
      if channel.hasEncoder {
        frameLengthRange := env.frameLengths;
        bitrateRange := env.bitrateRange;
      }
      if sending {
        completed := ReconfigureBitrateObserver(c, env.regranted);
        if !completed {
          return;
        }
      }
      config := c;
      history, answers := history + [c], answers + [env.created];
      completed := true;
    }

    // ---------------------------------------------------------------- start and stop

    method StartSending(env: Env) returns (completed: bool)
      modifies this, audioState, audioState.audioTransport, bitrateAllocator
      ensures var spec := Start(old(InScene()), env);
              completed == spec.Some? && (completed ==> InScene() == spec.value)
    {
      if sending {
        return true;
      }
      completed := EnrolAtStart(env.granted);
      if completed {
        SwitchOn(env.reply);
      }
    }

    /** The first half of a start: registers with the allocator where that is
        wanted. */
    method EnrolAtStart(granted: int) returns (completed: bool)
      modifies this, bitrateAllocator
      ensures var spec := RegisterAtStart(old(InScene()), granted);
              completed == spec.Some? && (completed ==> InScene() == spec.value)
    {
      if !config.hasDscp && config.minBitrateBps != -1 && config.maxBitrateBps != -1
         && (settings.withoutFeedback || TransportSeqNumId(config) != 0) {
        MarkPartOfAllocation(true);
        completed := ConfigureBitrateObserver(granted);
      } else {
        MarkPartOfAllocation(false);
        completed := true;
      }
    }

    /** The second half: starts the channel and tells the audio state. */
    method SwitchOn(reply: AudioStates.Reply)
      modifies this, audioState, audioState.audioTransport
      ensures InScene() == BeginSending(old(InScene()), reply)
    {
      channel := channel.(started := true);
      sending := true;
      startedAt := |history|;
      audioState.AddSendingStream(id, encoder, reply);
    }

    method StopSending()
      modifies this, audioState, audioState.audioTransport, bitrateAllocator
      ensures InScene() == Stop(old(InScene()))
    {
      if !sending {
        return;
      }
      RemoveBitrateObserver();
      channel := channel.(started := false);
      sending := false;
      audioState.RemoveSendingStream(id);
    }
  }

  lemma FirstTurns(ids: Registry, ch: Change)
    ensures var a := Update(ids, ch, AudioLevel);
            UpdateFirst(2, ids, ch) == if a.None? then None else Update(a.value, ch, AbsSendTime)
  {
    assert UpdateFirst(1, ids, ch) == Update(ids, ch, Turn(0));
  }

  /** The last three updates, one after the other; a refused one ends them. */
  lemma LastTurns(ids: Registry, ch: Change)
    ensures var b := UpdateFirst(2, ids, ch);
            UpdateFirst(5, ids, ch) ==
            if b.None? then None else
            var c := Update(b.value, ch, TransportSequenceNumber);
            if c.None? then None else
            var d := Update(c.value, ch, Mid);
            if d.None? then None else Update(d.value, ch, AbsCaptureTime)
  {
    var b := UpdateFirst(2, ids, ch);
    assert UpdateFirst(3, ids, ch) == if b.None? then None else Update(b.value, ch, Turn(2));
    var c := UpdateFirst(3, ids, ch);
    assert UpdateFirst(4, ids, ch) == if c.None? then None else Update(c.value, ch, Turn(3));
  }

  class AudioReceiveStream {
    const id: nat
    const audioState: AudioStates.AudioState
    var playing: bool

    constructor (id: nat, audioState: AudioStates.AudioState)
      ensures this.id == id && this.audioState == audioState && !playing
    {
      this.id, this.audioState, playing := id, audioState, false;
    }

    method Start(mixerOk: bool, reply: AudioStates.Reply)
      modifies this, audioState
      ensures playing
      ensures audioState.View() == if old(playing) then old(audioState.View())
                                   else AudioStates.Step(old(audioState.View()), AudioStates.AddReceiving(id, mixerOk, reply))
    {
      if playing {
        return;
      }
      playing := true;
      audioState.AddReceivingStream(id, mixerOk, reply);
    }

    /** Also what the destructor does first. */
    method Stop()
      modifies this, audioState
      ensures !playing
      ensures audioState.View() == if !old(playing) then old(audioState.View())
                                   else AudioStates.Step(old(audioState.View()), AudioStates.RemoveReceiving(id))
    {
      if !playing {
        return;
      }
      playing := false;
      audioState.RemoveReceivingStream(id);
    }
  }
}
