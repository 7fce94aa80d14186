/** Incremental configuration against fresh configuration: what a stream that
    was reconfigured any number of times has in common with one constructed
    directly from its last configuration. */
module SendStreamFresh {
  import opened Common
  import opened HeaderExtensionMap
  import opened SendStreamSpec
  import opened SendStreamRegistry
  import opened SendStreamInvariants
  import AudioStates

  /** A stream constructed from a configuration. */
  function Construct(id: nat, settings: Settings, c: Config, env: Env,
                     audio: AudioStates.State, allocator: map<nat, Allocation>): Option<Scene> {
    Configure(Scene(NewStream(id, settings, c), audio, allocator), c, true, env)
  }

  function FirstChange(st: Stream): Change { Change(DEFAULT_CONFIG, st.config, true, st.settings.withoutFeedback) }

  /** What a construction would register, the reconfigured stream has registered. */
  lemma AskedIsRegistered(st: Stream, t: ExtensionType)
    requires Wired(st) && Touched(FirstChange(st), t)
    ensures CurrentId(st.rtp.ids, t) == IdOf(st.config.ids, t)
  {
    assert st.config in st.history;
  }

  lemma FreshFits(st: Stream, t: ExtensionType)
    requires Wired(st)
    ensures Fits(map[], FirstChange(st), t)
  {
    var ch, id := FirstChange(st), IdOf(st.config.ids, t);
    if Touched(ch, t) && id != 0 {
      AskedIsRegistered(st, t);
      assert t in st.rtp.ids && st.rtp.ids[t] == id;
      forall u: ExtensionType | u != t
        ensures id != if Rank(u) < Rank(t) then FinalId(map[], ch, u) else CurrentId(map[], u)
      {
        if Touched(ch, u) && IdOf(st.config.ids, u) != 0 {
          AskedIsRegistered(st, u);
          assert u in st.rtp.ids && st.rtp.ids[u] == IdOf(st.config.ids, u);
        }
      }
    }
  }

  lemma ConstructionIs(id: nat, settings: Settings, c: Config, env: Env,
                       audio: AudioStates.State, allocator: map<nat, Allocation>)
    ensures Construct(id, settings, c, env, audio, allocator).Some? <==>
            UpdateFirst(5, map[], Change(DEFAULT_CONFIG, c, true, settings.withoutFeedback)).Some?
  {
  }

  /** A construction from the configuration that a stream has come to have is
      never stopped by a failed check. */
  lemma ConstructionCompletes(st: Stream, env: Env, audio: AudioStates.State, allocator: map<nat, Allocation>)
    requires Wired(st)
    ensures Construct(st.id, st.settings, st.config, env, audio, allocator).Some?
  {
    var ch := FirstChange(st);
    forall t: ExtensionType ensures Fits(map[], ch, t) { FreshFits(st, t); }
    assert Sound(map[]);
    RegistryExact(map[], ch);
    ConstructionIs(st.id, st.settings, st.config, env, audio, allocator);
  }

  lemma ConstructionWired(id: nat, settings: Settings, c: Config, env: Env,
                          audio: AudioStates.State, allocator: map<nat, Allocation>)
    requires Construct(id, settings, c, env, audio, allocator).Some?
    ensures var st := Construct(id, settings, c, env, audio, allocator).value.stream;
            Wired(st) && st.history == [c] && st.settings == settings && st.config == c
  {
    var sc := Scene(NewStream(id, settings, c), audio, allocator);
    ConfigureWires(sc, c, true, env);
    ConfigureWiring(sc, c, true, env);
    assert WiringOf(Configure(sc, c, true, env).value.stream).history == [c];
  }

  /** The two agree on everything the configuration is copied into, except that
      the frame transformer, the transport sequence number and the MID agree
      exactly when the current configuration asks for them or none of the earlier
      ones did. */
  ghost predicate Agree(st: Stream, direct: Stream) {
    var w, v := WiringOf(st), WiringOf(direct);
    && w == v.(frameTransformer := w.frameTransformer, ids := w.ids, mid := w.mid, history := w.history)
    && (w.frameTransformer == v.frameTransformer <==>
        st.config.frameTransformer != 0 || forall c | c in st.history :: c.frameTransformer == 0)
    && CurrentId(w.ids, AudioLevel) == CurrentId(v.ids, AudioLevel)
    && CurrentId(w.ids, AbsSendTime) == CurrentId(v.ids, AbsSendTime)
    && CurrentId(w.ids, AbsCaptureTime) == CurrentId(v.ids, AbsCaptureTime)
    && (CurrentId(w.ids, TransportSequenceNumber) == CurrentId(v.ids, TransportSequenceNumber) <==>
        st.settings.withoutFeedback || st.config.ids.transportSequenceNumber != 0 ||
        forall c | c in st.history :: c.ids.transportSequenceNumber == 0)
    && (CurrentId(w.ids, Mid) == CurrentId(v.ids, Mid) && w.mid == v.mid <==>
        (st.config.ids.mid != 0 && st.config.mid != "") ||
        forall c | c in st.history :: c.ids.mid == 0 || c.mid == "")
  }

  lemma WiredAgree(st: Stream, direct: Stream)
    requires Wired(st) && Wired(direct) && direct.history == [st.config] && direct.settings == st.settings
    ensures Agree(st, direct)
  {
    assert st.config in st.history && st.config in direct.history;
    assert forall c | c in direct.history :: c == st.config;
    if forall c | c in st.history :: c.ids.mid == 0 || c.mid == "" {
      NoMid(st.history);
      NoMid(direct.history);
    }
    TransformerKept(st.history);
    TransformerKept(direct.history);
  }

  lemma IncrementalAgreesWithFresh(st: Stream, env: Env, audio: AudioStates.State, allocator: map<nat, Allocation>)
    requires Wired(st)
    ensures Construct(st.id, st.settings, st.config, env, audio, allocator).Some?
    ensures Agree(st, Construct(st.id, st.settings, st.config, env, audio, allocator).value.stream)
  {
    ConstructionCompletes(st, env, audio, allocator);
    ConstructionWired(st.id, st.settings, st.config, env, audio, allocator);
    WiredAgree(st, Construct(st.id, st.settings, st.config, env, audio, allocator).value.stream);
  }

  lemma NoMid(history: seq<Config>)
    requires forall c | c in history :: c.ids.mid == 0 || c.mid == ""
    ensures LastMid(history) == ""
  {
  }

  lemma TransformerKept(history: seq<Config>)
    ensures LastTransformer(history) == 0 <==> forall c | c in history :: c.frameTransformer == 0
  {
  }

  /** The channel is given a transformer while it has none, as it insists in
      debug builds. */
  predicate DelegateFree(st: Stream, c: Config, first: bool) {
    c.frameTransformer != 0 && (first || c.frameTransformer != st.config.frameTransformer) ==>
      st.channel.frameTransformer == 0
  }

  /** A construction meets that check exactly when it brings no transformer: the
      channel's constructor has installed it already. A reconfiguration meets it
      exactly unless it brings a transformer other than the current one, and some
      configuration before had one: even the same one cannot be brought back. */
  lemma TransformerOnlyOnce(st: Stream, c: Config, id: nat, settings: Settings)
    requires Wired(st)
    ensures DelegateFree(NewStream(id, settings, c), c, true) <==> c.frameTransformer == 0
    ensures DelegateFree(st, c, false) <==>
            || c.frameTransformer == 0 || c.frameTransformer == st.config.frameTransformer
            || forall d | d in st.history :: d.frameTransformer == 0
  {
    TransformerKept(st.history);
  }

  /** The k-th configuration brings a transformer that the one before had not. */
  predicate Brings(history: seq<Config>, k: nat)
    requires k < |history|
  {
    history[k].frameTransformer != 0 && (k == 0 || history[k].frameTransformer != history[k - 1].frameTransformer)
  }

  /** The check at the k-th configuration, in terms of the channel's transformer
      before it. */
  predicate CheckedAt(history: seq<Config>, k: nat)
    requires k < |history|
  {
    Brings(history, k) ==>
      (if k == 0 then history[0].frameTransformer else LastTransformer(history[..k])) == 0
  }

  lemma {:induction false} BroughtBefore(history: seq<Config>, n: nat)
    requires n <= |history| && LastTransformer(history[..n]) != 0
    ensures exists j: nat :: j < n && Brings(history, j)
  {
    if history[n - 1].frameTransformer == 0 {
      assert history[..n][..n - 1] == history[..n - 1];
      BroughtBefore(history, n - 1);
    } else if !Brings(history, n - 1) {
      assert LastTransformer(history[..n - 1]) != 0;
      BroughtBefore(history, n - 1);
    }
  }

  /** This is the check of a stream with that history. */
  lemma CheckIs(st: Stream, c: Config, id: nat, settings: Settings)
    requires Wired(st)
    ensures DelegateFree(NewStream(id, settings, c), c, true) <==> CheckedAt([c], 0)
    ensures DelegateFree(st, c, false) <==> CheckedAt(st.history + [c], |st.history|)
  {
    assert (st.history + [c])[..|st.history|] == st.history;
  }

  lemma CheckedExactly(history: seq<Config>, k: nat)
    requires k < |history| && Brings(history, k)
    ensures CheckedAt(history, k) <==> k != 0 && forall j: nat | j < k :: !Brings(history, j)
  {
    if k != 0 {
      if LastTransformer(history[..k]) != 0 {
        BroughtBefore(history, k);
      } else {
        TransformerKept(history[..k]);
        forall j: nat | j < k ensures !Brings(history, j) {
          assert history[..k][j] == history[j];
          assert history[j] in history[..k];
        }
      }
    }
  }

  /** Over its life a stream meets the check at every configuration exactly when
      it is constructed without a transformer and at most one is ever brought. */
  lemma AlwaysCheckedExactly(history: seq<Config>)
    requires history != []
    ensures (forall k: nat | k < |history| :: CheckedAt(history, k)) <==>
            && !Brings(history, 0)
            && forall j: nat, k: nat | j < k < |history| :: !(Brings(history, j) && Brings(history, k))
  {
    forall k: nat | k < |history|
      ensures CheckedAt(history, k) <==> (Brings(history, k) ==> k != 0 && forall j: nat | j < k :: !Brings(history, j))
    {
      if Brings(history, k) { CheckedExactly(history, k); }
    }
    if forall k: nat | k < |history| :: CheckedAt(history, k) {
      assert CheckedAt(history, 0);
    }
  }

  /** The audio level's id cannot be moved: asking for another id while one is
      registered stops the program, although the absolute times may move. */
  lemma LevelIdCannotMove(sc: Scene, c: Config, env: Env)
    requires Wired(sc.stream)
    requires sc.stream.config.ids.audioLevel != 0 && c.ids.audioLevel != 0
    requires sc.stream.config.ids.audioLevel != c.ids.audioLevel
    ensures Configure(sc, c, false, env).None?
  {
    var st := sc.stream;
    var ch := Change(st.config, c, false, st.settings.withoutFeedback);
    RegistryExact(st.rtp.ids, ch);
    assert CurrentId(st.rtp.ids, AudioLevel) == st.config.ids.audioLevel;
    assert !Fits(st.rtp.ids, ch, AudioLevel);
  }

  /** Nor can two extensions exchange their ids in one step. */
  lemma TimesCannotExchange(sc: Scene, c: Config, env: Env)
    requires Wired(sc.stream)
    requires c.ids.absSendTime == sc.stream.config.ids.absCaptureTime && c.ids.absSendTime != 0
    requires c.ids.absCaptureTime == sc.stream.config.ids.absSendTime && c.ids.absCaptureTime != 0
    ensures Configure(sc, c, false, env).None?
  {
    var st := sc.stream;
    var ch := Change(st.config, c, false, st.settings.withoutFeedback);
    RegistryExact(st.rtp.ids, ch);
    assert CurrentId(st.rtp.ids, AbsCaptureTime) == st.config.ids.absCaptureTime;
    assert CurrentId(st.rtp.ids, AbsSendTime) == st.config.ids.absSendTime;
    assert !Fits(st.rtp.ids, ch, AbsSendTime);
  }

  /** There is a codec where there was none, or one of another format, payload
      type or RED payload type. */
  predicate Renews(was: Option<Codec>, now: Option<Codec>) {
    now.Some? &&
    (was.None? || now.value.format != was.value.format || now.value.payloadType != was.value.payloadType
     || now.value.redPayloadType != was.value.redPayloadType)
  }

  lemma EncoderOnlyFromSetup(sc: Scene, c: Config, first: bool, env: Env)
    requires Configure(sc, c, first, env).Some?
    ensures Configure(sc, c, first, env).value.stream.encoder ==
            if Renews(sc.stream.config.codec, c.codec) && env.created.Some? then env.created.value else sc.stream.encoder
  {
    var extended := sc.(stream := ConfigureExtensions(ConfigureChannel(sc.stream, c, first), c, first).value);
    var coded := ConfigureCodec(extended, c, env.created, env.reply);
    CodecEncoder(extended, c, env.created, env.reply);
    OverheadKeepsEncoder(coded, env.rtpOverhead, env.granted);
    FinishKeepsEncoder(UpdateOverhead(coded, env.rtpOverhead, env.granted).value, c, env);
  }

  lemma CodecEncoder(sc: Scene, c: Config, created: Option<AudioStates.Properties>, reply: AudioStates.Reply)
    ensures ConfigureCodec(sc, c, created, reply).stream.encoder ==
            if Renews(sc.stream.config.codec, c.codec) && created.Some? then created.value else sc.stream.encoder
  {
  }

  lemma FinishKeepsEncoder(sc: Scene, c: Config, env: Env)
    requires FinishConfigure(sc, c, env).Some?
    ensures FinishConfigure(sc, c, env).value.stream.encoder == sc.stream.encoder
  {
  }

  lemma OverheadKeepsEncoder(sc: Scene, rtpOverhead: nat, granted: int)
    requires UpdateOverhead(sc, rtpOverhead, granted).Some?
    ensures UpdateOverhead(sc, rtpOverhead, granted).value.stream.encoder == sc.stream.encoder
  {
  }

  predicate SameEncoder(c: Codec, d: Codec) {
    c.format == d.format && c.payloadType == d.payloadType && c.redPayloadType == d.redPayloadType
  }

  /** A configuration whose encoder could not be created is kept all the same, so
      the next one does not try again for the same encoder: exactly a change of
      format or payload type does, and otherwise the old encoder stays. */
  lemma FailedEncoderIsNotRetried(sc: Scene, c: Config, env: Env, d: Config, env': Env)
    requires NeedsEncoder(sc.stream.config, c) && env.created.None?
    requires Configure(sc, c, false, env).Some?
    requires Configure(Configure(sc, c, false, env).value, d, false, env').Some?
    ensures var retried := d.codec.Some? && !SameEncoder(c.codec.value, d.codec.value) && env'.created.Some?;
            Configure(Configure(sc, c, false, env).value, d, false, env').value.stream.encoder ==
            if retried then env'.created.value else sc.stream.encoder
  {
    var once := Configure(sc, c, false, env).value;
    ConfigureWiring(sc, c, false, env);
    EncoderOnlyFromSetup(sc, c, false, env);
    EncoderOnlyFromSetup(once, d, false, env');
  }
}
