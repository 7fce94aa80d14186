/** Which encoder a send stream has, over every sequence of configurations. */
module SendStreamEncoder {
  import opened Common
  import opened SendStreamSpec
  import opened SendStreamCompletion
  import SendStreamFresh
  import AudioStates

  type Answers = seq<Option<AudioStates.Properties>>

  /** The configuration that the k-th one was compared with. */
  function Before(history: seq<Config>, k: nat): Config
    requires k <= |history|
  {
    if k == 0 then DEFAULT_CONFIG else history[k - 1]
  }

  /** The k-th configuration needed an encoder, and it was created. */
  predicate Supplies(history: seq<Config>, answers: Answers, k: nat)
    requires k < |history| == |answers|
  {
    SendStreamFresh.Renews(Before(history, k).codec, history[k].codec) && answers[k].Some?
  }

  /** The last configuration that did, if any. */
  function Supplying(history: seq<Config>, answers: Answers): (k: Option<nat>)
    requires |history| == |answers|
    ensures k.Some? ==> k.value < |history| && Supplies(history, answers, k.value)
    ensures forall j: nat | j < |history| && (k.Some? ==> k.value < j) :: !Supplies(history, answers, j)
  {
    if history == [] then None
    else
      var last := |history| - 1;
      if Supplies(history, answers, last) then Some(last)
      else
        var earlier := Supplying(history[..last], answers[..last]);
        assert forall j: nat | j < last :: Supplies(history, answers, j) == Supplies(history[..last], answers[..last], j);
        earlier
  }

  /** The stream has the encoder that was created for that one, or else none. */
  ghost predicate Supplied(st: Stream) {
    && |st.answers| == |st.history|
    && var k := Supplying(st.history, st.answers);
       && st.channel.hasEncoder == k.Some?
       && st.encoder == if k.Some? then st.answers[k.value].value else AudioStates.Properties(0, 0)
  }

  lemma SupplyingAfter(history: seq<Config>, answers: Answers, c: Config, a: Option<AudioStates.Properties>)
    requires |history| == |answers|
    ensures Supplying(history + [c], answers + [a]) ==
            if SendStreamFresh.Renews(Before(history, |history|).codec, c.codec) && a.Some? then Some(|history|)
            else Supplying(history, answers)
  {
    assert (history + [c])[..|history|] == history && (answers + [a])[..|history|] == answers;
  }

  /** A configuration is recorded, and the ranges of the encoder are read if there
      is one by then. */
  lemma RecordsAfter(sc: Scene, c: Config, first: bool, env: Env)
    requires Configure(sc, c, first, env).Some?
    ensures var st := Configure(sc, c, first, env).value.stream;
            && st.history == sc.stream.history + [c] && st.answers == sc.stream.answers + [env.created]
            && st.channel.hasEncoder == WillHaveEncoder(sc.stream, c, env)
            && st.frameLengths == (if st.channel.hasEncoder then env.frameLengths else sc.stream.frameLengths)
            && st.bitrateRange == (if st.channel.hasEncoder then env.bitrateRange else sc.stream.bitrateRange)
  {
    var coded := CodedScene(sc, c, first, env);
    OverheadCompletes(coded, env.rtpOverhead, env.granted);
    FinishRecords(UpdateOverhead(coded, env.rtpOverhead, env.granted).value, c, env);
  }

  lemma FinishRecords(sc: Scene, c: Config, env: Env)
    requires FinishConfigure(sc, c, env).Some?
    ensures var st := FinishConfigure(sc, c, env).value.stream;
            && st.history == sc.stream.history + [c] && st.answers == sc.stream.answers + [env.created]
            && st.channel.hasEncoder == sc.stream.channel.hasEncoder
            && st.frameLengths == (if st.channel.hasEncoder then env.frameLengths else sc.stream.frameLengths)
            && st.bitrateRange == (if st.channel.hasEncoder then env.bitrateRange else sc.stream.bitrateRange)
  {
  }

  lemma ConfigureSupplied(sc: Scene, c: Config, first: bool, env: Env)
    requires Supplied(sc.stream) && sc.stream.config == Before(sc.stream.history, |sc.stream.history|)
    requires Configure(sc, c, first, env).Some?
    ensures Supplied(Configure(sc, c, first, env).value.stream)
  {
    RecordsAfter(sc, c, first, env);
    SendStreamFresh.EncoderOnlyFromSetup(sc, c, first, env);
    SupplyingAfter(sc.stream.history, sc.stream.answers, c, env.created);
  }
}
