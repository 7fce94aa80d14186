/** Concrete runs: a sending, registered stream, and one run for each way in
    which a stream does not end up as its configuration asks. */
module SessionExamples {
  import opened Common
  import opened HeaderExtensionMap
  import opened SendStreamSpec
  import opened SendStreamRegistry
  import opened SendStreamInvariants
  import opened SendStreamBitrates
  import opened SendStreamCompletion
  import SendStreamFresh
  import opened Session
  import AudioStates

  // ------------------------------------------------------------------ how they go

  lemma RunThen(ops: seq<Op>, s: Session, op: Op)
    requires Run(ops) == Some(s)
    ensures Run(ops + [op]) == Step(s, op)
  {
    assert (ops + [op])[..|ops|] == ops;
  }

  lemma RunOne(a: Op)
    ensures Run([a]) == Step(EMPTY, a)
  {
    RunThen([], EMPTY, a);
    assert [] + [a] == [a];
  }

  lemma RunTwo(a: Op, s: Session, b: Op)
    requires Run([a]) == Some(s)
    ensures Run([a, b]) == Step(s, b)
  {
    RunThen([a], s, b);
    assert [a] + [b] == [a, b];
  }

  lemma RunThree(a: Op, b: Op, s: Session, c: Op)
    requires Run([a, b]) == Some(s)
    ensures Run([a, b, c]) == Step(s, c)
  {
    RunThen([a, b], s, c);
    assert [a, b] + [c] == [a, b, c];
  }

  ghost predicate FitFresh(settings: Settings, c: Config) {
    forall t: ExtensionType :: Fits(map[], Change(DEFAULT_CONFIG, c, true, settings.withoutFeedback), t)
  }

  /** Creating a stream completes when its ids fit an empty registry. */
  lemma Creates(settings: Settings, c: Config, env: Env) returns (s: Session)
    requires FitFresh(settings, c)
    ensures Run([Create(0, settings, c, env)]) == Some(s) && Valid(s) && 0 in s.streams
    ensures var st := s.streams[0]; st.config == c && st.history == [c] && st.settings == settings && !st.sending
  {
    var sc := Scene(NewStream(0, settings, c), AudioStates.INITIAL, map[]);
    RunOne(Create(0, settings, c, env));
    ConfigureCompletes(sc, c, true, env);
    SendStreamFresh.ConstructionWired(0, settings, c, env, sc.audio, sc.allocator);
    ConfigureIdle(sc, c, true, env);
    RunValid([Create(0, settings, c, env)]);
    s := Run([Create(0, settings, c, env)]).value;
  }

  ghost predicate FitNext(st: Stream, d: Config) {
    forall t: ExtensionType :: Fits(st.rtp.ids, Change(st.config, d, false, st.settings.withoutFeedback), t)
  }

  /** Reconfiguring an idle stream completes when the new ids fit. */
  lemma Reconfigures(s: Session, d: Config, env: Env) returns (s': Session)
    requires Valid(s) && 0 in s.streams && !s.streams[0].sending && FitNext(s.streams[0], d)
    ensures Step(s, Reconfigure(0, d, env)) == Some(s') && Valid(s') && 0 in s'.streams
    ensures var st, st' := s.streams[0], s'.streams[0];
            st'.config == d && st'.history == st.history + [d] && st'.settings == st.settings && !st'.sending
  {
    StreamWired(s, 0);
    StreamLinked(s, 0);
    ConfigureCompletes(SceneOf(s, 0), d, false, env);
    ConfigureWiring(SceneOf(s, 0), d, false, env);
    ConfigureIdle(SceneOf(s, 0), d, false, env);
    StepKeeps(s, Reconfigure(0, d, env));
    s' := Step(s, Reconfigure(0, d, env)).value;
  }

  // ------------------------------------------------------------ what is not undone

  predicate Undemanding(c: Config) { c.frameTransformer == 0 && c.ids == NO_IDS }

  predicate Demanding(c: Config) { c.frameTransformer != 0 && TransportSeqNumId(c) != 0 && MidWanted(c) }

  /** A stream that asked for a frame transformer, a transport sequence number and
      a MID, and is reconfigured to ask for none of them, keeps all three. */
  lemma OldDemandsStay(settings: Settings, c: Config, d: Config, env: Env)
    requires !settings.withoutFeedback && FitFresh(settings, c) && Demanding(c) && Undemanding(d)
    ensures var s := Run([Create(0, settings, c, env), Reconfigure(0, d, env)]);
            && s.Some? && 0 in s.value.streams && s.value.streams[0].config == d
            && var w := WiringOf(s.value.streams[0]);
               && w.frameTransformer == c.frameTransformer
               && CurrentId(w.ids, TransportSequenceNumber) == TransportSeqNumId(c)
               && CurrentId(w.ids, Mid) == c.ids.mid && w.mid == c.mid
  {
    var s := Creates(settings, c, env);
    StreamWired(s, 0);
    AsksForNothing(s.streams[0], d);
    var s' := Reconfigures(s, d, env);
    RunTwo(Create(0, settings, c, env), s, Reconfigure(0, d, env));
    StreamWired(s', 0);
    OldDemands(s'.streams[0], c, d);
  }

  /** One that is created without them has none. */
  lemma FreshHasNone(settings: Settings, d: Config, env: Env)
    requires Undemanding(d)
    ensures var s := Run([Create(0, settings, d, env)]);
            && s.Some? && 0 in s.value.streams && s.value.streams[0].config == d
            && var w := WiringOf(s.value.streams[0]);
               && w.frameTransformer == 0 && CurrentId(w.ids, TransportSequenceNumber) == 0
               && CurrentId(w.ids, Mid) == 0 && w.mid == ""
  {
    var s := Creates(settings, d, env);
    StreamWired(s, 0);
    NoDemands(s.streams[0], d);
  }

  lemma AsksForNothing(st: Stream, d: Config)
    requires Undemanding(d) && Wired(st)
    ensures FitNext(st, d)
  {
  }

  lemma OldDemands(st: Stream, c: Config, d: Config)
    requires Wired(st) && !st.settings.withoutFeedback && st.history == [c] + [d] && Undemanding(d)
    requires Demanding(c)
    ensures st.channel.frameTransformer == c.frameTransformer
    ensures CurrentId(st.rtp.ids, TransportSequenceNumber) == TransportSeqNumId(c)
    ensures CurrentId(st.rtp.ids, Mid) == c.ids.mid && st.rtp.mid == c.mid
  {
    assert c in st.history;
    assert st.history[..1] == [c];
    assert LastMid([c]) == c.mid && LastTransformer([c]) == c.frameTransformer;
  }

  lemma NoDemands(st: Stream, d: Config)
    requires Wired(st) && st.history == [d] && Undemanding(d)
    ensures st.channel.frameTransformer == 0
    ensures CurrentId(st.rtp.ids, TransportSequenceNumber) == 0
    ensures CurrentId(st.rtp.ids, Mid) == 0 && st.rtp.mid == ""
  {
    assert st.history[..0] == [];
    assert LastMid([]) == "" && LastTransformer([]) == 0;
  }

  const SETTINGS := Settings(false, true, false, None, None, 0, None, None)
  const ENV := Env(None, AudioStates.Reply(true, true), 0, None, None, 20000, 20000)

  const DEMANDING := DEFAULT_CONFIG.(
    frameTransformer := 1, mid := "a", ids := NO_IDS.(transportSequenceNumber := 5, mid := 6))

  lemma OldDemandsStayHere()
    ensures var s := Run([Create(0, SETTINGS, DEMANDING, ENV), Reconfigure(0, DEFAULT_CONFIG, ENV)]);
            && s.Some? && 0 in s.value.streams && s.value.streams[0].config == DEFAULT_CONFIG
            && var w := WiringOf(s.value.streams[0]);
               && w.frameTransformer == 1
               && CurrentId(w.ids, TransportSequenceNumber) == 5
               && CurrentId(w.ids, Mid) == 6 && w.mid == "a"
    ensures var s := Run([Create(0, SETTINGS, DEFAULT_CONFIG, ENV)]);
            && s.Some? && 0 in s.value.streams && s.value.streams[0].config == DEFAULT_CONFIG
            && var w := WiringOf(s.value.streams[0]);
               && w.frameTransformer == 0 && CurrentId(w.ids, TransportSequenceNumber) == 0
               && CurrentId(w.ids, Mid) == 0 && w.mid == ""
  {
    OldDemandsStay(SETTINGS, DEMANDING, DEFAULT_CONFIG, ENV);
    FreshHasNone(SETTINGS, DEFAULT_CONFIG, ENV);
  }

  function Transforming(transformer: nat): Config { DEFAULT_CONFIG.(frameTransformer := transformer) }

  /** A stream without transformer is given a first one, which the channel is free
      for, and then a second one, which it is not: debug builds stop here, and
      release builds replace the first. */
  lemma SecondTransformer(env: Env)
    ensures var s := Run([Create(0, SETTINGS, DEFAULT_CONFIG, env)]);
            s.Some? && 0 in s.value.streams &&
            SendStreamFresh.DelegateFree(s.value.streams[0], Transforming(1), false)
    ensures var s := Run([Create(0, SETTINGS, DEFAULT_CONFIG, env), Reconfigure(0, Transforming(1), env)]);
            s.Some? && 0 in s.value.streams &&
            !SendStreamFresh.DelegateFree(s.value.streams[0], Transforming(2), false)
    ensures var s := Run([Create(0, SETTINGS, DEFAULT_CONFIG, env), Reconfigure(0, Transforming(1), env),
                          Reconfigure(0, Transforming(2), env)]);
            s.Some? && 0 in s.value.streams && s.value.streams[0].channel.frameTransformer == 2
  {
    var a, b, c := Create(0, SETTINGS, DEFAULT_CONFIG, env), Reconfigure(0, Transforming(1), env),
                   Reconfigure(0, Transforming(2), env);
    var s := Creates(SETTINGS, DEFAULT_CONFIG, env);
    StreamWired(s, 0);
    SameIdsFit(s.streams[0], Transforming(1));
    TransformerOf(s.streams[0]);
    var s' := Reconfigures(s, Transforming(1), env);
    RunTwo(a, s, b);
    StreamWired(s', 0);
    SameIdsFit(s'.streams[0], Transforming(2));
    TransformerOf(s'.streams[0]);
    var s'' := Reconfigures(s', Transforming(2), env);
    RunThree(a, b, s', c);
    StreamWired(s'', 0);
    TransformerOf(s''.streams[0]);
  }

  lemma TransformerOf(st: Stream)
    requires Wired(st)
    ensures st.config.frameTransformer != 0 ==> st.channel.frameTransformer == st.config.frameTransformer
    ensures |st.history| == 1 ==> st.channel.frameTransformer == st.config.frameTransformer
  {
    if |st.history| == 1 {
      assert st.history[..0] == [];
      assert LastTransformer([]) == 0;
    }
  }

  // ------------------------------------------------------------- what ends the run

  function Level(id: nat): Config { DEFAULT_CONFIG.(ids := NO_IDS.(audioLevel := id)) }

  /** Moving the audio level to another id ends the program, although either
      configuration can be constructed. */
  lemma LevelMoveEnds(settings: Settings, i: nat, j: nat, env: Env)
    requires 1 <= i <= 255 && 1 <= j <= 255 && i != j
    ensures Run([Create(0, settings, Level(i), env)]).Some? && Run([Create(0, settings, Level(j), env)]).Some?
    ensures Run([Create(0, settings, Level(i), env), Reconfigure(0, Level(j), env)]).None?
  {
    LevelFits(settings, i);
    LevelFits(settings, j);
    var s := Creates(settings, Level(i), env);
    var s' := Creates(settings, Level(j), env);
    StreamWired(s, 0);
    SendStreamFresh.LevelIdCannotMove(SceneOf(s, 0), Level(j), env);
    RunTwo(Create(0, settings, Level(i), env), s, Reconfigure(0, Level(j), env));
  }

  lemma LevelFits(settings: Settings, i: nat)
    requires 1 <= i <= 255
    ensures FitFresh(settings, Level(i))
  {
  }

  function Times(send: nat, capture: nat): Config {
    DEFAULT_CONFIG.(ids := NO_IDS.(absSendTime := send, absCaptureTime := capture))
  }

  /** So does exchanging the ids of the two absolute times. */
  lemma ExchangeEnds(settings: Settings, i: nat, j: nat, env: Env)
    requires 1 <= i <= 255 && 1 <= j <= 255 && i != j
    ensures Run([Create(0, settings, Times(i, j), env)]).Some? && Run([Create(0, settings, Times(j, i), env)]).Some?
    ensures Run([Create(0, settings, Times(i, j), env), Reconfigure(0, Times(j, i), env)]).None?
  {
    TimesFit(settings, i, j);
    TimesFit(settings, j, i);
    var s := Creates(settings, Times(i, j), env);
    var s' := Creates(settings, Times(j, i), env);
    StreamWired(s, 0);
    SendStreamFresh.TimesCannotExchange(SceneOf(s, 0), Times(j, i), env);
    RunTwo(Create(0, settings, Times(i, j), env), s, Reconfigure(0, Times(j, i), env));
  }

  lemma TimesFit(settings: Settings, i: nat, j: nat)
    requires 1 <= i <= 255 && 1 <= j <= 255 && i != j
    ensures FitFresh(settings, Times(i, j))
  {
  }

  // ------------------------------------------------------------------ registration

  function Limits(id: nat, dscp: bool): Config {
    DEFAULT_CONFIG.(minBitrateBps := 6000, maxBitrateBps := 32000, hasDscp := dscp,
                    ids := NO_IDS.(transportSequenceNumber := id))
  }

  /** Under the legacy overhead calculation, without an encoder, nothing can take
      the configured limits away. */
  predicate Plain(st: Stream) {
    && st.settings == SETTINGS.(withoutFeedback := st.settings.withoutFeedback)
    && st.bitrateRange == None && !st.channel.hasEncoder && st.config.codec == None
    && 0 <= st.config.minBitrateBps <= st.config.maxBitrateBps
  }

  lemma PlainAfter(sc: Scene, c: Config, first: bool, env: Env)
    requires sc.stream.settings == SETTINGS.(withoutFeedback := sc.stream.settings.withoutFeedback)
    requires sc.stream.bitrateRange == None && !sc.stream.channel.hasEncoder
    requires c.codec == None && 0 <= c.minBitrateBps <= c.maxBitrateBps
    requires Configure(sc, c, first, env).Some?
    ensures var st := Configure(sc, c, first, env).value.stream;
            Plain(st) && st.startedAt == sc.stream.startedAt && st.sending == sc.stream.sending
  {
    var coded := CodedScene(sc, c, first, env);
    OverheadCompletes(coded, env.rtpOverhead, env.granted);
    FinishPlain(UpdateOverhead(coded, env.rtpOverhead, env.granted).value, c, env);
  }

  lemma FinishPlain(sc: Scene, c: Config, env: Env)
    requires sc.stream.settings == SETTINGS.(withoutFeedback := sc.stream.settings.withoutFeedback)
    requires sc.stream.bitrateRange == None && !sc.stream.channel.hasEncoder
    requires c.codec == None && 0 <= c.minBitrateBps <= c.maxBitrateBps
    requires FinishConfigure(sc, c, env).Some?
    ensures var st := FinishConfigure(sc, c, env).value.stream;
            Plain(st) && st.startedAt == sc.stream.startedAt && st.sending == sc.stream.sending
  {
  }

  lemma CreatesPlain(withoutFeedback: bool, id: nat, env: Env) returns (s: Session)
    requires id <= 255
    ensures Run([Create(0, SETTINGS.(withoutFeedback := withoutFeedback), Limits(id, false), env)]) == Some(s)
    ensures Valid(s) && 0 in s.streams
    ensures var st := s.streams[0];
            && Plain(st) && st.config == Limits(id, false) && st.history == [st.config] && !st.sending
            && st.settings.withoutFeedback == withoutFeedback
  {
    var settings := SETTINGS.(withoutFeedback := withoutFeedback);
    s := Creates(settings, Limits(id, false), env);
    RunOne(Create(0, settings, Limits(id, false), env));
    PlainAfter(Scene(NewStream(0, settings, Limits(id, false)), AudioStates.INITIAL, map[]), Limits(id, false), true, env);
  }

  lemma StartsPlain(s: Session, env: Env) returns (s': Session)
    requires Valid(s) && 0 in s.streams && !s.streams[0].sending && Plain(s.streams[0])
    ensures Step(s, StartSend(0, env)) == Some(s') && Valid(s') && 0 in s'.streams
    ensures var st, st' := s.streams[0], s'.streams[0];
            && Plain(st') && st'.sending && st'.config == st.config && st'.history == st.history
            && st'.settings == st.settings && st'.startedAt == |st.history|
            && (0 in s'.allocator <==> AllocatableAtStart(st.config, st.settings.withoutFeedback))
  {
    StreamLinked(s, 0);
    StartCompletes(SceneOf(s, 0), env);
    StartWiring(SceneOf(s, 0), env);
    StepKeeps(s, StartSend(0, env));
    s' := Step(s, StartSend(0, env)).value;
    StreamLinked(s', 0);
  }

  lemma CompletesPlain(sc: Scene, d: Config, env: Env)
    requires Plain(sc.stream) && Sound(sc.stream.rtp.ids) && FitNext(sc.stream, d)
    requires d.codec == None && 0 <= d.minBitrateBps <= d.maxBitrateBps
    ensures Configure(sc, d, false, env).Some?
  {
    ConfigureCompletes(sc, d, false, env);
  }

  lemma ReconfiguresPlain(s: Session, d: Config, env: Env) returns (s': Session)
    requires Valid(s) && 0 in s.streams && s.streams[0].sending && Plain(s.streams[0]) && FitNext(s.streams[0], d)
    requires d.codec == None && 0 <= d.minBitrateBps <= d.maxBitrateBps
    ensures Step(s, Reconfigure(0, d, env)) == Some(s') && Valid(s') && 0 in s'.streams
    ensures var st, st' := s.streams[0], s'.streams[0];
            && Plain(st') && st'.sending && st'.config == d && st'.history == st.history + [d]
            && st'.settings == st.settings && st'.startedAt == st.startedAt
  {
    StreamWired(s, 0);
    CompletesPlain(SceneOf(s, 0), d, env);
    ConfigureWiring(SceneOf(s, 0), d, false, env);
    PlainAfter(SceneOf(s, 0), d, false, env);
    StepKeeps(s, Reconfigure(0, d, env));
    s' := Step(s, Reconfigure(0, d, env)).value;
  }

  function Starting(withoutFeedback: bool, id: nat, env: Env): seq<Op> {
    [Create(0, SETTINGS.(withoutFeedback := withoutFeedback), Limits(id, false), env), StartSend(0, env)]
  }

  lemma Started(withoutFeedback: bool, id: nat, env: Env) returns (s: Session)
    requires id <= 255
    ensures Run(Starting(withoutFeedback, id, env)) == Some(s) && Valid(s) && 0 in s.streams
    ensures var st := s.streams[0];
            && Plain(st) && st.sending && st.config == Limits(id, false) && st.history == [st.config]
            && st.settings.withoutFeedback == withoutFeedback && st.startedAt == 1
            && (0 in s.allocator <==> withoutFeedback || id != 0)
  {
    var created := CreatesPlain(withoutFeedback, id, env);
    s := StartsPlain(created, env);
    RunTwo(Create(0, SETTINGS.(withoutFeedback := withoutFeedback), Limits(id, false), env), created, StartSend(0, env));
  }

  /** A stream with limits and feedback is sending and registered; with the DSCP
      mark added, and nothing else changed, it still is. */
  lemma MarkedStaysRegistered(id: nat, env: Env)
    requires 1 <= id <= 255
    ensures var s := Run(Starting(false, id, env));
            s.Some? && 0 in s.value.streams && s.value.streams[0].sending && 0 in s.value.allocator
    ensures var s := Run(Starting(false, id, env) + [Reconfigure(0, Limits(id, true), env)]);
            && s.Some? && 0 in s.value.streams && s.value.streams[0].sending && 0 in s.value.allocator
            && !Asks(s.value.streams[0].config, true)
  {
    var s := Started(false, id, env);
    StreamWired(s, 0);
    SameIdsFit(s.streams[0], Limits(id, true));
    var s' := ReconfiguresPlain(s, Limits(id, true), env);
    RunThen(Starting(false, id, env), s, Reconfigure(0, Limits(id, true), env));
    StreamLinked(s', 0);
    StreamDecided(s', 0);
    DecisionAfter(s.streams[0].history, 1, false, Limits(id, true));
  }

  lemma SameIdsFit(st: Stream, d: Config)
    requires Wired(st) && d.ids == st.config.ids && d.mid == st.config.mid
    ensures FitNext(st, d)
  {
  }

  /** A stream without a transport sequence number is registered by a start
      without feedback, and by the next change of its priority no longer. */
  lemma StartedWithoutFeedback(env: Env)
    ensures var s := Run(Starting(true, 0, env));
            && s.Some? && 0 in s.value.streams && s.value.streams[0].sending && 0 in s.value.allocator
            && !Asks(s.value.streams[0].config, true)
    ensures var s := Run(Starting(true, 0, env) + [Reconfigure(0, Limits(0, false).(bitratePriority := 2.0), env)]);
            s.Some? && 0 in s.value.streams && s.value.streams[0].sending && 0 !in s.value.allocator
  {
    var d := Limits(0, false).(bitratePriority := 2.0);
    var s := Started(true, 0, env);
    StreamWired(s, 0);
    SameIdsFit(s.streams[0], d);
    var s' := ReconfiguresPlain(s, d, env);
    RunThen(Starting(true, 0, env), s, Reconfigure(0, d, env));
    StreamLinked(s', 0);
    StreamDecided(s', 0);
    DecisionAfter(s.streams[0].history, 1, true, d);
  }

  // ---------------------------------------------------------------------- encoders

  function Coded(payloadType: int, target: Option<int>): Config {
    DEFAULT_CONFIG.(codec := Some(Codec(payloadType, "opus", None, None, target, false, false)))
  }

  lemma FirstEncoder(env: Env) returns (s: Session)
    requires env.created.Some?
    ensures Run([Create(0, SETTINGS, Coded(1, None), env)]) == Some(s) && Valid(s) && 0 in s.streams
    ensures var st := s.streams[0]; st.config == Coded(1, None) && !st.sending && st.encoder == env.created.value
  {
    var a := Create(0, SETTINGS, Coded(1, None), env);
    s := Creates(SETTINGS, Coded(1, None), env);
    RunOne(a);
    SendStreamFresh.EncoderOnlyFromSetup(
      Scene(NewStream(0, SETTINGS, Coded(1, None)), AudioStates.INITIAL, map[]), Coded(1, None), true, env);
  }

  lemma LaterEncoders(s: Session, env: Env, env': Env) returns (s': Session, s'': Session)
    requires Valid(s) && 0 in s.streams && !s.streams[0].sending && s.streams[0].config == Coded(1, None)
    requires env.created.None?
    ensures Step(s, Reconfigure(0, Coded(2, None), env)) == Some(s')
    ensures Step(s', Reconfigure(0, Coded(2, Some(32000)), env')) == Some(s'') && 0 in s''.streams
    ensures s''.streams[0].config == Coded(2, Some(32000)) && s''.streams[0].encoder == s.streams[0].encoder
  {
    StreamWired(s, 0);
    SameIdsFit(s.streams[0], Coded(2, None));
    s' := Reconfigures(s, Coded(2, None), env);
    StreamWired(s', 0);
    SameIdsFit(s'.streams[0], Coded(2, Some(32000)));
    s'' := Reconfigures(s', Coded(2, Some(32000)), env');
    SendStreamFresh.EncoderOnlyFromSetup(SceneOf(s, 0), Coded(2, None), false, env);
    SendStreamFresh.EncoderOnlyFromSetup(SceneOf(s', 0), Coded(2, Some(32000)), false, env');
  }

  /** The encoder for a second payload type cannot be created; a later
      configuration that only sets a target bitrate could have it created, but
      the stream stays with its first encoder. */
  lemma EncoderStays(env: Env, p: AudioStates.Properties, q: AudioStates.Properties)
    ensures var s := Run([Create(0, SETTINGS, Coded(1, None), env.(created := Some(p))),
                          Reconfigure(0, Coded(2, None), env.(created := None)),
                          Reconfigure(0, Coded(2, Some(32000)), env.(created := Some(q)))]);
            s.Some? && 0 in s.value.streams && s.value.streams[0].config == Coded(2, Some(32000))
            && s.value.streams[0].encoder == p
  {
    var a := Create(0, SETTINGS, Coded(1, None), env.(created := Some(p)));
    var b := Reconfigure(0, Coded(2, None), env.(created := None));
    var c := Reconfigure(0, Coded(2, Some(32000)), env.(created := Some(q)));
    var s := FirstEncoder(a.env);
    var s', s'' := LaterEncoders(s, b.env, c.env);
    RunTwo(a, s, b);
    RunThree(a, b, s', c);
  }

  // ------------------------------------------------------------------ stale limits

  function Named(cName: string): Config {
    Limits(5, false).(cName := cName, codec := Some(Codec(1, "opus", None, None, None, false, false)))
  }

  function Saying(min: int, max: int): Env {
    Env(Some(AudioStates.Properties(48000, 2)), AudioStates.Reply(true, true), 0, None, Some(Rates(min, max)), 20000, 20000)
  }

  predicate HasRange(st: Stream, r: Rates) {
    && st.settings == SETTINGS && st.channel.hasEncoder && st.bitrateRange == Some(r) && r.min <= r.max
    && 0 <= st.config.minBitrateBps && 0 <= st.config.maxBitrateBps
  }

  lemma RangeAfter(sc: Scene, c: Config, first: bool, env: Env)
    requires Configure(sc, c, first, env).Some? && WillHaveEncoder(sc.stream, c, env)
    ensures var st := Configure(sc, c, first, env).value.stream;
            && st.bitrateRange == env.bitrateRange && st.settings == sc.stream.settings && st.channel.hasEncoder
            && st.sending == sc.stream.sending
    ensures var st := Configure(sc, c, first, env).value.stream;
            ObserverUnchanged(sc.stream.config, c) ==>
              && st.registered == sc.stream.registered
              && (st.registeredWith == sc.stream.registeredWith || st.registeredWith == CurrentRanges(sc.stream))
  {
    var coded := CodedScene(sc, c, first, env);
    OverheadCompletes(coded, env.rtpOverhead, env.granted);
    OverheadRange(coded, env.rtpOverhead, env.granted);
    FinishRange(UpdateOverhead(coded, env.rtpOverhead, env.granted).value, c, env);
  }

  lemma OverheadRange(sc: Scene, rtpOverhead: nat, granted: int)
    requires UpdateOverhead(sc, rtpOverhead, granted).Some?
    ensures var st := UpdateOverhead(sc, rtpOverhead, granted).value.stream;
            st.registeredWith == sc.stream.registeredWith || st.registeredWith == CurrentRanges(sc.stream)
  {
  }

  lemma FinishRange(sc: Scene, c: Config, env: Env)
    requires FinishConfigure(sc, c, env).Some? && sc.stream.channel.hasEncoder
    ensures var st := FinishConfigure(sc, c, env).value.stream;
            && st.bitrateRange == env.bitrateRange && st.settings == sc.stream.settings && st.channel.hasEncoder
            && st.sending == sc.stream.sending
            && (ObserverUnchanged(sc.stream.config, c) ==>
                  st.registered == sc.stream.registered && st.registeredWith == sc.stream.registeredWith)
  {
  }

  lemma CreatesRanged(cName: string, min: int, max: int) returns (s: Session)
    requires min <= max
    ensures Run([Create(0, SETTINGS, Named(cName), Saying(min, max))]) == Some(s) && Valid(s) && 0 in s.streams
    ensures var st := s.streams[0];
            HasRange(st, Rates(min, max)) && st.config == Named(cName) && !st.sending
  {
    s := Creates(SETTINGS, Named(cName), Saying(min, max));
    RunOne(Create(0, SETTINGS, Named(cName), Saying(min, max)));
    RangeAfter(Scene(NewStream(0, SETTINGS, Named(cName)), AudioStates.INITIAL, map[]), Named(cName), true, Saying(min, max));
  }

  lemma StartsRanged(s: Session, r: Rates, env: Env) returns (s': Session)
    requires Valid(s) && 0 in s.streams && !s.streams[0].sending && HasRange(s.streams[0], r)
    requires Allocatable(s.streams[0].config)
    ensures Step(s, StartSend(0, env)) == Some(s') && Valid(s') && 0 in s'.streams
    ensures var st' := s'.streams[0];
            && HasRange(st', r) && st'.sending && st'.registered && st'.config == s.streams[0].config
            && st'.registeredWith.bitrateRange == Some(r)
  {
    StreamLinked(s, 0);
    StartCompletes(SceneOf(s, 0), env);
    StepKeeps(s, StartSend(0, env));
    s' := Step(s, StartSend(0, env)).value;
  }

  lemma CompletesRanged(sc: Scene, r: Rates, cName: string, env: Env)
    requires HasRange(sc.stream, r) && Sound(sc.stream.rtp.ids) && FitNext(sc.stream, Named(cName))
    requires exists was: string :: sc.stream.config == Named(was)
    ensures Configure(sc, Named(cName), false, env).Some?
  {
    ConfigureCompletes(sc, Named(cName), false, env);
  }

  lemma Stepped(s: Session, op: Op) returns (s': Session)
    requires Valid(s) && Step(s, op).Some?
    ensures Step(s, op) == Some(s') && Valid(s')
  {
    StepKeeps(s, op);
    s' := Step(s, op).value;
  }

  lemma RenamedScene(sc: Scene, r: Rates, cName: string, env: Env)
    requires HasRange(sc.stream, r) && sc.stream.sending && sc.stream.registered && Wired(sc.stream)
    requires sc.stream.registeredWith.bitrateRange == Some(r)
    requires exists was: string :: sc.stream.config == Named(was)
    ensures Configure(sc, Named(cName), false, env).Some?
    ensures var st := Configure(sc, Named(cName), false, env).value.stream;
            && st.registered && st.settings == SETTINGS && st.config == Named(cName)
            && st.bitrateRange == env.bitrateRange && st.registeredWith.bitrateRange == Some(r)
  {
    SameIdsFit(sc.stream, Named(cName));
    CompletesRanged(sc, r, cName, env);
    ConfigureWiring(sc, Named(cName), false, env);
    RangeAfter(sc, Named(cName), false, env);
  }

  lemma RenamesRanged(s: Session, r: Rates, cName: string, min: int, max: int) returns (s': Session)
    requires Valid(s) && 0 in s.streams && HasRange(s.streams[0], r) && s.streams[0].sending && s.streams[0].registered
    requires s.streams[0].registeredWith.bitrateRange == Some(r)
    requires exists was: string :: s.streams[0].config == Named(was)
    ensures Step(s, Reconfigure(0, Named(cName), Saying(min, max))) == Some(s') && Valid(s') && 0 in s'.streams
    ensures var st' := s'.streams[0];
            && st'.registered && st'.settings == SETTINGS && st'.config == Named(cName)
            && st'.bitrateRange == Some(Rates(min, max)) && st'.registeredWith.bitrateRange == Some(r)
  {
    StreamWired(s, 0);
    RenamedScene(SceneOf(s, 0), r, cName, Saying(min, max));
    s' := Stepped(s, Reconfigure(0, Named(cName), Saying(min, max)));
  }

  lemma LimitsOf(s: Session, r: Rates, q: Rates)
    requires Valid(s) && 0 in s.streams && s.streams[0].registered && s.streams[0].settings == SETTINGS
    requires 0 <= s.streams[0].config.minBitrateBps && 0 <= s.streams[0].config.maxBitrateBps
    requires s.streams[0].registeredWith.bitrateRange == Some(r) && s.streams[0].bitrateRange == Some(q)
    requires r.min <= r.max && q.min <= q.max
    ensures 0 in s.allocator
    ensures s.allocator[0].minBps == r.min + 6666 && s.allocator[0].maxBps == r.max + 6666
    ensures Constraints(s.streams[0]) == Some(Rates(q.min + 6666, q.max + 6666))
  {
    StreamFollows(s, 0);
  }

  /** A registered stream is given another name, while its encoder has come to
      another range: the allocator keeps the limits from the old range. */
  lemma LimitsGoStale(was: string, now: string, r: Rates, q: Rates)
    requires r.min <= r.max && q.min <= q.max
    ensures var s := Run([Create(0, SETTINGS, Named(was), Saying(r.min, r.max)), StartSend(0, Saying(r.min, r.max)),
                          Reconfigure(0, Named(now), Saying(q.min, q.max))]);
            && s.Some? && 0 in s.value.streams && 0 in s.value.allocator
            && s.value.allocator[0].minBps == r.min + 6666
            && s.value.allocator[0].maxBps == r.max + 6666
            && Constraints(s.value.streams[0]) == Some(Rates(q.min + 6666, q.max + 6666))
  {
    var a, b, c := Create(0, SETTINGS, Named(was), Saying(r.min, r.max)), StartSend(0, Saying(r.min, r.max)),
                   Reconfigure(0, Named(now), Saying(q.min, q.max));
    var s := CreatesRanged(was, r.min, r.max);
    var s' := StartsRanged(s, r, b.env);
    RunTwo(a, s, b);
    var s'' := RenamesRanged(s', r, now, q.min, q.max);
    RunThree(a, b, s', c);
    LimitsOf(s'', r, q);
  }
}
