/** Exactly when the operations of a send stream are not stopped by a failed
    check. */
module SendStreamCompletion {
  import opened Common
  import opened HeaderExtensionMap
  import opened SendStreamSpec
  import opened SendStreamRegistry
  import opened SendStreamBitrates

  /** The stream has an encoder once the codec has been dealt with. */
  predicate WillHaveEncoder(st: Stream, c: Config, env: Env) {
    st.channel.hasEncoder || (NeedsEncoder(st.config, c) && env.created.Some?)
  }

  /** A changed overhead renews an existing registration, which needs limits from
      the OLD configuration and encoder ranges. */
  ghost predicate OverheadAdmissible(st: Stream, rtpOverhead: nat) {
    var total := st.transportOverhead + rtpOverhead;
    st.registered && st.overhead != total ==> HasLimits(st, CurrentRanges(st))
  }

  /** A registration under the new configuration needs limits from it and from
      the encoder's NEW ranges. */
  ghost predicate ObserverAdmissible(st: Stream, c: Config, env: Env) {
    var renewed := WillHaveEncoder(st, c, env);
    st.sending && !SameCompared(st.config, c) && Asks(c, true) ==>
      HasLimits(st.(config := c), if renewed then Ranges(env.frameLengths, env.bitrateRange) else CurrentRanges(st))
  }

  lemma OverheadCompletes(sc: Scene, rtpOverhead: nat, granted: int)
    ensures UpdateOverhead(sc, rtpOverhead, granted).Some? <==> OverheadAdmissible(sc.stream, rtpOverhead)
    ensures UpdateOverhead(sc, rtpOverhead, granted).Some? ==>
              var st := UpdateOverhead(sc, rtpOverhead, granted).value.stream;
              st == sc.stream.(overhead := sc.stream.transportOverhead + rtpOverhead, channel := st.channel,
                               registeredWith := st.registeredWith) &&
              st.channel.hasEncoder == sc.stream.channel.hasEncoder
  {
    LimitsExactly(sc.stream.(overhead := sc.stream.transportOverhead + rtpOverhead), CurrentRanges(sc.stream));
  }

  lemma FinishCompletes(sc: Scene, c: Config, env: Env)
    ensures FinishConfigure(sc, c, env).Some? <==>
            (sc.stream.sending && !SameCompared(sc.stream.config, c) && Asks(c, true) ==>
               HasLimits(sc.stream.(config := c),
                         if sc.stream.channel.hasEncoder then Ranges(env.frameLengths, env.bitrateRange)
                         else CurrentRanges(sc.stream)))
  {
    LimitsExactly(ReadRanges(sc.stream, env).(config := c),
                  if sc.stream.channel.hasEncoder then Ranges(env.frameLengths, env.bitrateRange)
                  else CurrentRanges(sc.stream));
  }

  /** A configuration completes if and only if every new extension id fits, and
      there are limits wherever a registration is made on the way. */
  lemma ConfigureCompletes(sc: Scene, c: Config, first: bool, env: Env)
    requires Sound(sc.stream.rtp.ids)
    ensures var ch := Change(sc.stream.config, c, first, sc.stream.settings.withoutFeedback);
            Configure(sc, c, first, env).Some? <==>
            && (forall t: ExtensionType :: Fits(sc.stream.rtp.ids, ch, t))
            && OverheadAdmissible(sc.stream, env.rtpOverhead)
            && ObserverAdmissible(sc.stream, c, env)
  {
    var ch := Change(sc.stream.config, c, first, sc.stream.settings.withoutFeedback);
    RegistryExact(sc.stream.rtp.ids, ch);
    if ConfigureExtensions(ConfigureChannel(sc.stream, c, first), c, first).Some? {
      var coded := CodedScene(sc, c, first, env);
      OverheadCompletes(coded, env.rtpOverhead, env.granted);
      var counted := UpdateOverhead(coded, env.rtpOverhead, env.granted);
      if counted.Some? {
        FinishCompletes(counted.value, c, env);
      }
    }
  }

  /** The scene in which a configuration comes to the overhead. */
  lemma CodedScene(sc: Scene, c: Config, first: bool, env: Env) returns (coded: Scene)
    requires ConfigureExtensions(ConfigureChannel(sc.stream, c, first), c, first).Some?
    ensures coded.stream == sc.stream.(channel := coded.stream.channel, rtp := coded.stream.rtp, encoder := coded.stream.encoder)
    ensures coded.stream.channel.hasEncoder == WillHaveEncoder(sc.stream, c, env)
    ensures OverheadAdmissible(coded.stream, env.rtpOverhead) <==> OverheadAdmissible(sc.stream, env.rtpOverhead)
    ensures var counted := UpdateOverhead(coded, env.rtpOverhead, env.granted);
            Configure(sc, c, first, env) == if counted.None? then None else FinishConfigure(counted.value, c, env)
  {
    var extended := ConfigureExtensions(ConfigureChannel(sc.stream, c, first), c, first);
    coded := ConfigureCodec(sc.(stream := extended.value), c, env.created, env.reply);
  }

  /** Starting completes if and only if the stream is sending already, is not to
      be allocated, or has limits. */
  lemma StartCompletes(sc: Scene, env: Env)
    ensures Start(sc, env).Some? <==>
            || sc.stream.sending
            || !Asks(sc.stream.config, !sc.stream.settings.withoutFeedback)
            || HasLimits(sc.stream, CurrentRanges(sc.stream))
  {
    LimitsExactly(sc.stream, CurrentRanges(sc.stream));
  }
}
