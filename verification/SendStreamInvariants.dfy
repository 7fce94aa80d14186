/** What every configuration of a send stream keeps: the channel and the RTP
    module mirror the current one, and what is never taken back remembers the
    earlier ones. */
module SendStreamInvariants {
  import opened Common
  import opened HeaderExtensionMap
  import opened SendStreamSpec
  import opened SendStreamRegistry
  import AudioStates

  // -------------------------------------------------------------------- mirroring

  /** Everything that the configuration is copied into. */
  datatype Wiring = Wiring(
    cName: string, frameEncryptor: nat, frameTransformer: nat, csrcs: seq<nat>, includeAudioLevel: bool,
    ids: Registry, extmapAllowMixed: bool, mid: string, history: seq<Config>, settings: Settings)

  function WiringOf(st: Stream): Wiring {
    Wiring(st.channel.cName, st.channel.frameEncryptor, st.channel.frameTransformer, st.channel.csrcs,
           st.channel.includeAudioLevel, st.rtp.ids, st.rtp.extmapAllowMixed, st.rtp.mid, st.history, st.settings)
  }

  /** CNAME and CSRCs are cut to 255 characters and 15 sources. */
  ghost predicate Mirrors(w: Wiring, c: Config) {
    && w.cName <= c.cName && |w.cName| == Min(|c.cName|, 255)
    && w.frameEncryptor == c.frameEncryptor
    && w.csrcs <= c.csrcs && |w.csrcs| == Min(|c.csrcs|, 15)
    && w.extmapAllowMixed == c.extmapAllowMixed
    && w.includeAudioLevel == (c.ids.audioLevel != 0)
    && Sound(w.ids)
    && CurrentId(w.ids, AudioLevel) == c.ids.audioLevel
    && CurrentId(w.ids, AbsSendTime) == c.ids.absSendTime
    && CurrentId(w.ids, AbsCaptureTime) == c.ids.absCaptureTime
  }

  /** The last MID that was configured together with an id for it. */
  function LastMid(history: seq<Config>): string {
    var k := LastWhere(history, (c: Config) => c.ids.mid != 0 && c.mid != "");
    if k == -1 then "" else history[k].mid
  }

  /** The last frame transformer that was configured, 0 if none was. */
  function LastTransformer(history: seq<Config>): nat {
    var k := LastWhere(history, (c: Config) => c.frameTransformer != 0);
    if k == -1 then 0 else history[k].frameTransformer
  }

  /** The two extensions that are never deregistered remember the past: each is
      registered from the first configuration that asks for it on, and every
      configuration that asked agreed on the id. */
  ghost predicate RemembersSeqNum(ids: Registry, history: seq<Config>, withoutFeedback: bool) {
    var id := CurrentId(ids, TransportSequenceNumber);
    && (forall c | c in history && c.ids.transportSequenceNumber != 0 && !withoutFeedback ::
          id == c.ids.transportSequenceNumber)
    && (id != 0 ==> !withoutFeedback && exists c :: c in history && c.ids.transportSequenceNumber != 0)
  }

  ghost predicate RemembersMid(ids: Registry, history: seq<Config>) {
    var id := CurrentId(ids, Mid);
    && (forall c | c in history && c.ids.mid != 0 && c.mid != "" :: id == c.ids.mid)
    && (id != 0 ==> exists c :: c in history && c.ids.mid != 0 && c.mid != "")
  }

  ghost predicate Remembers(w: Wiring) {
    && RemembersSeqNum(w.ids, w.history, w.settings.withoutFeedback)
    && RemembersMid(w.ids, w.history)
    && w.mid == LastMid(w.history)
    && w.frameTransformer == LastTransformer(w.history)
  }

  /** A configured stream: its wiring mirrors its configuration. */
  ghost predicate Wired(st: Stream) {
    && st.history != [] && st.config == st.history[|st.history| - 1]
    && Mirrors(WiringOf(st), st.config)
    && Remembers(WiringOf(st))
  }

  // Nothing but the first two phases of a configuration touches the wiring.

  lemma OverheadKeepsWiring(sc: Scene, rtpOverhead: nat, granted: int)
    requires UpdateOverhead(sc, rtpOverhead, granted).Some?
    ensures var st := UpdateOverhead(sc, rtpOverhead, granted).value.stream;
            WiringOf(st) == WiringOf(sc.stream) && st.config == sc.stream.config
  {
  }

  lemma ReconfigureObserverKeepsWiring(sc: Scene, c: Config, granted: int)
    requires ReconfigureObserver(sc, c, granted).Some?
    ensures WiringOf(ReconfigureObserver(sc, c, granted).value.stream) == WiringOf(sc.stream)
  {
  }

  lemma ConfigureWiring(sc: Scene, c: Config, first: bool, env: Env)
    requires Configure(sc, c, first, env).Some?
    ensures var extended := ConfigureExtensions(ConfigureChannel(sc.stream, c, first), c, first);
            && extended.Some?
            && WiringOf(Configure(sc, c, first, env).value.stream) ==
               WiringOf(extended.value).(history := sc.stream.history + [c])
    ensures Configure(sc, c, first, env).value.stream.config == c
  {
    var extended := ConfigureExtensions(ConfigureChannel(sc.stream, c, first), c, first);
    var coded := ConfigureCodec(sc.(stream := extended.value), c, env.created, env.reply);
    CodecKeepsWiring(sc.(stream := extended.value), c, env.created, env.reply);
    OverheadKeepsWiring(coded, env.rtpOverhead, env.granted);
    FinishWiring(UpdateOverhead(coded, env.rtpOverhead, env.granted).value, c, env);
  }

  lemma CodecKeepsWiring(sc: Scene, c: Config, created: Option<AudioStates.Properties>, reply: AudioStates.Reply)
    ensures WiringOf(ConfigureCodec(sc, c, created, reply).stream) == WiringOf(sc.stream)
  {
  }

  lemma FinishWiring(sc: Scene, c: Config, env: Env)
    requires FinishConfigure(sc, c, env).Some?
    ensures WiringOf(FinishConfigure(sc, c, env).value.stream) == WiringOf(sc.stream).(history := sc.stream.history + [c])
    ensures FinishConfigure(sc, c, env).value.stream.config == c
  {
    var ranged := sc.(stream := ReadRanges(sc.stream, env));
    if ranged.stream.sending {
      ReconfigureObserverKeepsWiring(ranged, c, env.regranted);
    }
  }

  lemma ExtensionsMirror(st: Stream, c: Config, first: bool)
    requires Sound(st.rtp.ids)
    requires if first then st.rtp.ids == map[] else Mirrors(WiringOf(st), st.config)
    requires ConfigureExtensions(ConfigureChannel(st, c, first), c, first).Some?
    ensures Mirrors(WiringOf(ConfigureExtensions(ConfigureChannel(st, c, first), c, first).value), c)
  {
    RegistryExact(st.rtp.ids, Change(st.config, c, first, st.settings.withoutFeedback));
  }

  lemma SeqNumRemembered(ids: Registry, ids': Registry, history: seq<Config>, ch: Change)
    requires if ch.first then ids == map[] && history == []
             else ch.from in history && RemembersSeqNum(ids, history, ch.withoutFeedback)
    requires Fits(ids, ch, TransportSequenceNumber)
    requires CurrentId(ids', TransportSequenceNumber) == FinalId(ids, ch, TransportSequenceNumber)
    ensures RemembersSeqNum(ids', history + [ch.to], ch.withoutFeedback)
  {
  }

  lemma MidRemembered(ids: Registry, ids': Registry, history: seq<Config>, ch: Change)
    requires if ch.first then ids == map[] && history == [] else ch.from in history && RemembersMid(ids, history)
    requires Fits(ids, ch, Mid)
    requires CurrentId(ids', Mid) == FinalId(ids, ch, Mid)
    ensures RemembersMid(ids', history + [ch.to])
  {
  }

  lemma MidTextRemembered(mid: string, history: seq<Config>, ch: Change)
    requires mid == LastMid(history)
    requires if ch.first then history == [] else history != [] && ch.from == history[|history| - 1]
    ensures LastMid(history + [ch.to]) == if Touched(ch, Mid) then ch.to.mid else mid
  {
  }

  lemma TransformerRemembered(st: Stream, c: Config, first: bool)
    requires if first then Blank(st, c)
             else st.history != [] && st.config == st.history[|st.history| - 1]
                  && st.channel.frameTransformer == LastTransformer(st.history)
    ensures ConfigureChannel(st, c, first).channel.frameTransformer == LastTransformer(st.history + [c])
  {
    assert (st.history + [c])[..|st.history|] == st.history;
  }

  /** A stream about to be configured for the first time. */
  predicate Blank(st: Stream, c: Config) {
    st.rtp.ids == map[] && st.rtp.mid == "" && st.channel.frameTransformer == c.frameTransformer && st.history == []
  }

  lemma ExtensionsRemember(st: Stream, c: Config, first: bool)
    requires if first then Blank(st, c) else Wired(st)
    requires ConfigureExtensions(ConfigureChannel(st, c, first), c, first).Some?
    ensures Remembers(WiringOf(ConfigureExtensions(ConfigureChannel(st, c, first), c, first).value).(history := st.history + [c]))
  {
    var ch := Change(st.config, c, first, st.settings.withoutFeedback);
    var ids' := UpdateFirst(5, st.rtp.ids, ch).value;
    RegistryExact(st.rtp.ids, ch);
    SeqNumRemembered(st.rtp.ids, ids', st.history, ch);
    MidRemembered(st.rtp.ids, ids', st.history, ch);
    MidTextRemembered(st.rtp.mid, st.history, ch);
    TransformerRemembered(st, c, first);
  }

  /** Every configuration that goes through leaves the stream wired to it. */
  lemma ConfigureWires(sc: Scene, c: Config, first: bool, env: Env)
    requires if first then Blank(sc.stream, c) else Wired(sc.stream)
    requires Configure(sc, c, first, env).Some?
    ensures Wired(Configure(sc, c, first, env).value.stream)
  {
    ConfigureWiring(sc, c, first, env);
    ExtensionsMirror(sc.stream, c, first);
    ExtensionsRemember(sc.stream, c, first);
  }
}
