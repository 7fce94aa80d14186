/** A whole audio session: any number of send and receive streams that are
    created, configured, started, stopped and destroyed in any order against one
    audio state and one bitrate allocator. */
module Session {
  import opened Common
  import opened SendStreamSpec
  import opened SendStreamInvariants
  import opened SendStreamBitrates
  import opened SendStreamEncoder
  import SendStreamFresh
  import opened AudioTransport
  import AudioStates

  // ------------------------------------------------------------ one stream's links

  /** The stream, the audio state and the allocator agree about the stream. */
  ghost predicate Linked(sc: Scene) {
    var st := sc.stream;
    && (st.sending <==> st.id in sc.audio.sending)
    && (st.sending ==> sc.audio.sending[st.id] == st.encoder)
    && (st.registered <==> st.id in sc.allocator)
    && (st.registered ==> st.sending)
    && st.channel.started == st.sending
    && st.channel.packetOverhead == st.overhead
  }

  ghost predicate SameElsewhere<V>(m: map<nat, V>, m': map<nat, V>, id: nat) {
    forall k | k != id :: (k in m <==> k in m') && (k in m ==> m[k] == m'[k])
  }

  /** Nothing has changed for any other stream. */
  ghost predicate OthersKept(sc: Scene, sc': Scene) {
    var id := sc.stream.id;
    && sc'.stream.id == id && sc'.stream.settings == sc.stream.settings
    && sc'.audio.receiving == sc.audio.receiving
    && SameElsewhere(sc.audio.sending, sc'.audio.sending, id)
    && SameElsewhere(sc.allocator, sc'.allocator, id)
  }

  lemma OverheadLinked(sc: Scene, rtpOverhead: nat, granted: int)
    requires Linked(sc) && UpdateOverhead(sc, rtpOverhead, granted).Some?
    ensures var sc' := UpdateOverhead(sc, rtpOverhead, granted).value;
            Linked(sc') && OthersKept(sc, sc') && sc'.stream.sending == sc.stream.sending && sc'.audio == sc.audio
  {
  }

  lemma CodecLinked(sc: Scene, c: Config, created: Option<AudioStates.Properties>, reply: AudioStates.Reply)
    requires Linked(sc)
    ensures var sc' := ConfigureCodec(sc, c, created, reply);
            Linked(sc') && OthersKept(sc, sc') && sc'.stream.sending == sc.stream.sending
  {
  }

  lemma ReconfigureObserverLinked(sc: Scene, c: Config, granted: int)
    requires Linked(sc) && sc.stream.sending && ReconfigureObserver(sc, c, granted).Some?
    ensures var sc' := ReconfigureObserver(sc, c, granted).value;
            Linked(sc') && OthersKept(sc, sc') && sc'.audio == sc.audio
  {
  }

  lemma ConfigureLinked(sc: Scene, c: Config, first: bool, env: Env)
    requires Linked(sc) && Configure(sc, c, first, env).Some?
    ensures Linked(Configure(sc, c, first, env).value) && OthersKept(sc, Configure(sc, c, first, env).value)
    ensures AudioStates.Safe(sc.audio) ==> AudioStates.Safe(Configure(sc, c, first, env).value.audio)
  {
    var extended := sc.(stream := ConfigureExtensions(ConfigureChannel(sc.stream, c, first), c, first).value);
    assert Linked(extended);
    var coded := ConfigureCodec(extended, c, env.created, env.reply);
    CodecLinked(extended, c, env.created, env.reply);
    if AudioStates.Safe(sc.audio) && coded.audio != sc.audio {
      AudioStates.StepSafe(sc.audio, AudioStates.AddSending(sc.stream.id, env.created.value, env.reply));
    }
    var counted := UpdateOverhead(coded, env.rtpOverhead, env.granted).value;
    OverheadLinked(coded, env.rtpOverhead, env.granted);
    var ranged := counted.(stream := ReadRanges(counted.stream, env));
    if ranged.stream.sending {
      ReconfigureObserverLinked(ranged, c, env.regranted);
    }
  }

  lemma StartLinked(sc: Scene, env: Env)
    requires Linked(sc) && Start(sc, env).Some?
    ensures Linked(Start(sc, env).value) && OthersKept(sc, Start(sc, env).value)
  {
  }

  lemma StartSafe(sc: Scene, env: Env)
    requires AudioStates.Safe(sc.audio) && Start(sc, env).Some?
    ensures AudioStates.Safe(Start(sc, env).value.audio)
  {
    if !sc.stream.sending {
      AudioStates.StepSafe(sc.audio, AudioStates.AddSending(sc.stream.id, sc.stream.encoder, env.reply));
    }
  }

  lemma StopLinked(sc: Scene)
    requires Linked(sc)
    ensures Linked(Stop(sc)) && OthersKept(sc, Stop(sc)) && !Stop(sc).stream.sending
  {
  }

  lemma StopSafe(sc: Scene)
    requires AudioStates.Safe(sc.audio)
    ensures AudioStates.Safe(Stop(sc).audio)
  {
    if sc.stream.sending {
      AudioStates.StepSafe(sc.audio, AudioStates.RemoveSending(sc.stream.id));
    }
  }

  // ------------------------------------------------------------------- the session

  datatype Session = Session(
    streams: map<nat, Stream>, receivers: map<nat, bool>, audio: AudioStates.State, allocator: map<nat, Allocation>)

  const EMPTY := Session(map[], map[], AudioStates.INITIAL, map[])

  datatype Op =
    | Create(id: nat, settings: Settings, config: Config, env: Env)
    | Reconfigure(id: nat, config: Config, env: Env)
    | StartSend(id: nat, env: Env)
    | StopSend(id: nat)
    | TransportOverhead(id: nat, bytes: nat, env: Env)
    | Rtcp(id: nat, env: Env)
    | BitrateUpdate(id: nat, target: int)
    | DestroySend(id: nat)
    | CreateReceiver(id: nat)
    | StartReceive(id: nat, mixerOk: bool, reply: AudioStates.Reply)
    | StopReceive(id: nat)
    | DestroyReceiver(id: nat)
    | SetPlayout(enabled: bool, reply: AudioStates.Reply)
    | SetRecording(enabled: bool, reply: AudioStates.Reply)
    | SwapStereo(enabled: bool)

  function SceneOf(s: Session, id: nat): Scene
    requires id in s.streams
  {
    Scene(s.streams[id], s.audio, s.allocator)
  }

  function Put(s: Session, id: nat, sc: Scene): Session {
    s.(streams := s.streams[id := sc.stream], audio := sc.audio, allocator := sc.allocator)
  }

  function PutIf(s: Session, id: nat, sc: Option<Scene>): Option<Session> {
    if sc.None? then None else Some(Put(s, id, sc.value))
  }

  function StopReceiver(s: Session, id: nat): Session
    requires id in s.receivers
  {
    if !s.receivers[id] then s
    else s.(receivers := s.receivers[id := false], audio := AudioStates.Step(s.audio, AudioStates.RemoveReceiving(id)))
  }

  /** None when a check fails, or when the operation names a stream that is not
      there or is there already. */
  function Step(s: Session, op: Op): Option<Session> {
    match op
    case Create(id, settings, config, env) =>
      if id in s.streams then None
      else PutIf(s, id, SendStreamFresh.Construct(id, settings, config, env, s.audio, s.allocator))
    case Reconfigure(id, config, env) =>
      if id !in s.streams then None else PutIf(s, id, Configure(SceneOf(s, id), config, false, env))
    case StartSend(id, env) =>
      if id !in s.streams then None else PutIf(s, id, Start(SceneOf(s, id), env))
    case StopSend(id) =>
      if id !in s.streams then None else Some(Put(s, id, Stop(SceneOf(s, id))))
    case TransportOverhead(id, bytes, env) =>
      if id !in s.streams then None else PutIf(s, id, SetTransportOverhead(SceneOf(s, id), bytes, env))
    case Rtcp(id, env) =>
      if id !in s.streams then None else PutIf(s, id, UpdateOverhead(SceneOf(s, id), env.rtpOverhead, env.granted))
    case BitrateUpdate(id, target) =>
      if id !in s.streams then None
      else Some(Put(s, id, SceneOf(s, id).(stream := BitrateUpdated(s.streams[id], target))))
    case DestroySend(id) =>
      if id !in s.streams then None
      else
        var stopped := Put(s, id, Stop(SceneOf(s, id)));
        Some(stopped.(streams := stopped.streams - {id}))
    case CreateReceiver(id) =>
      if id in s.receivers then None else Some(s.(receivers := s.receivers[id := false]))
    case StartReceive(id, mixerOk, reply) =>
      if id !in s.receivers then None
      else if s.receivers[id] then Some(s)
      else Some(s.(receivers := s.receivers[id := true],
                   audio := AudioStates.Step(s.audio, AudioStates.AddReceiving(id, mixerOk, reply))))
    case StopReceive(id) => if id !in s.receivers then None else Some(StopReceiver(s, id))
    case DestroyReceiver(id) =>
      if id !in s.receivers then None
      else Some(StopReceiver(s, id).(receivers := StopReceiver(s, id).receivers - {id}))
    case SetPlayout(enabled, reply) =>
      Some(s.(audio := AudioStates.Step(s.audio, AudioStates.SetPlayout(enabled, reply))))
    case SetRecording(enabled, reply) =>
      Some(s.(audio := AudioStates.Step(s.audio, AudioStates.SetRecording(enabled, reply))))
    case SwapStereo(enabled) =>
      Some(s.(audio := AudioStates.Step(s.audio, AudioStates.SwapStereo(enabled))))
  }

  /** What is true of one send stream in every state of every run. */
  ghost predicate InOrder(sc: Scene) {
    Linked(sc) && Follows(sc) && Wired(sc.stream) && Decided(sc.stream) && Supplied(sc.stream)
  }

  ghost predicate StreamOk(s: Session, id: nat)
    requires id in s.streams
  {
    s.streams[id].id == id && InOrder(SceneOf(s, id))
  }

  ghost predicate AllOk(s: Session) {
    forall id {:trigger StreamOk(s, id)} | id in s.streams :: StreamOk(s, id)
  }

  ghost predicate Valid(s: Session) {
    && AudioStates.Safe(s.audio)
    && AllOk(s)
    && s.audio.sending.Keys <= s.streams.Keys
    && s.allocator.Keys <= s.streams.Keys
    && (forall id :: id in s.audio.receiving <==> id in s.receivers && s.receivers[id])
  }

  lemma StreamLinked(s: Session, id: nat)
    requires Valid(s) && id in s.streams
    ensures Linked(SceneOf(s, id)) && s.streams[id].id == id
  {
    assert StreamOk(s, id);
  }

  lemma StreamWired(s: Session, id: nat)
    requires Valid(s) && id in s.streams
    ensures Wired(s.streams[id]) && s.streams[id].id == id
  {
    assert StreamOk(s, id);
  }

  lemma StreamDecided(s: Session, id: nat)
    requires Valid(s) && id in s.streams
    ensures Decided(s.streams[id])
  {
    assert StreamOk(s, id);
  }

  lemma StreamFollows(s: Session, id: nat)
    requires Valid(s) && id in s.streams
    ensures Follows(SceneOf(s, id)) && s.streams[id].id == id
  {
    assert StreamOk(s, id);
  }

  lemma StreamSupplied(s: Session, id: nat)
    requires Valid(s) && id in s.streams
    ensures Supplied(s.streams[id])
  {
    assert StreamOk(s, id);
  }

  /** A scene whose stream is in order, put back, leaves the session in order. */
  lemma PutKeeps(s: Session, id: nat, before: Scene, after: Scene)
    requires Valid(s)
    requires before.audio == s.audio && before.allocator == s.allocator && before.stream.id == id
    requires OthersKept(before, after) && InOrder(after)
    requires AudioStates.Safe(after.audio)
    ensures Valid(Put(s, id, after))
  {
    var s' := Put(s, id, after);
    forall k | k in s'.streams ensures StreamOk(s', k) {
      if k != id {
        StreamKept(s, s', k, id);
      }
    }
  }

  lemma StreamKept(s: Session, s': Session, k: nat, id: nat)
    requires k in s.streams && k in s'.streams && k != id && StreamOk(s, k) && s'.streams[k] == s.streams[k]
    requires SameElsewhere(s.audio.sending, s'.audio.sending, id) && SameElsewhere(s.allocator, s'.allocator, id)
    ensures StreamOk(s', k)
  {
  }

  lemma StreamsStay(s: Session, s': Session)
    requires AllOk(s) && s'.audio.sending == s.audio.sending && s'.allocator == s.allocator
    requires forall k | k in s'.streams :: k in s.streams && s'.streams[k] == s.streams[k]
    ensures AllOk(s')
  {
    forall k | k in s'.streams ensures StreamOk(s', k) {
      assert StreamOk(s, k);
    }
  }

  /** Changes that leave all send streams and their entries alone. */
  lemma AudioKeeps(s: Session, audio: AudioStates.State, receivers: map<nat, bool>)
    requires Valid(s) && AudioStates.Safe(audio) && audio.sending == s.audio.sending
    requires forall id :: id in audio.receiving <==> id in receivers && receivers[id]
    ensures Valid(s.(audio := audio, receivers := receivers))
  {
    StreamsStay(s, s.(audio := audio, receivers := receivers));
  }

  lemma CreateKeeps(s: Session, op: Op)
    requires Valid(s) && op.Create? && Step(s, op).Some?
    ensures Valid(Step(s, op).value)
  {
    var before := Scene(NewStream(op.id, op.settings, op.config), s.audio, s.allocator);
    var after := Configure(before, op.config, true, op.env).value;
    assert Linked(before);
    ConfigureLinked(before, op.config, true, op.env);
    ConfigureWires(before, op.config, true, op.env);
    ConfigureIdle(before, op.config, true, op.env);
    ConfigureFollows(before, op.config, true, op.env);
    ConfigureSupplied(before, op.config, true, op.env);
    PutKeeps(s, op.id, before, after);
  }

  /** A stream that is not sending is not started by being configured. */
  lemma ConfigureIdle(sc: Scene, c: Config, first: bool, env: Env)
    requires !sc.stream.sending && Configure(sc, c, first, env).Some?
    ensures !Configure(sc, c, first, env).value.stream.sending
  {
  }

  lemma ReconfigureKeeps(s: Session, op: Op)
    requires Valid(s) && op.Reconfigure? && Step(s, op).Some?
    ensures Valid(Step(s, op).value)
  {
    assert StreamOk(s, op.id);
    ConfigureInOrder(SceneOf(s, op.id), op.config, op.env);
    PutKeeps(s, op.id, SceneOf(s, op.id), Configure(SceneOf(s, op.id), op.config, false, op.env).value);
  }

  lemma ConfigureInOrder(sc: Scene, c: Config, env: Env)
    requires InOrder(sc) && AudioStates.Safe(sc.audio) && Configure(sc, c, false, env).Some?
    ensures var after := Configure(sc, c, false, env).value;
            InOrder(after) && OthersKept(sc, after) && AudioStates.Safe(after.audio)
  {
    var after := Configure(sc, c, false, env).value;
    assert Linked(after) && OthersKept(sc, after) && AudioStates.Safe(after.audio) by { ConfigureLinked(sc, c, false, env); }
    assert Wired(after.stream) by { ConfigureWires(sc, c, false, env); }
    assert Decided(after.stream) by { ConfigureDecided(sc, c, env); }
    assert Follows(after) by { ConfigureFollows(sc, c, false, env); }
    assert Supplied(after.stream) by { ConfigureSupplied(sc, c, false, env); }
  }

  /** What an operation that only touches other fields leaves alone. */
  lemma SameWiringWired(before: Stream, after: Stream)
    requires Wired(before) && WiringOf(after) == WiringOf(before) && after.config == before.config
    ensures Wired(after)
  {
  }

  lemma StartWiring(sc: Scene, env: Env)
    requires Start(sc, env).Some?
    ensures WiringOf(Start(sc, env).value.stream) == WiringOf(sc.stream)
    ensures Start(sc, env).value.stream.config == sc.stream.config
  {
  }

  lemma StartSupplied(sc: Scene, env: Env)
    requires Supplied(sc.stream) && Start(sc, env).Some?
    ensures Supplied(Start(sc, env).value.stream)
  {
  }

  lemma StartKeeps(s: Session, op: Op)
    requires Valid(s) && op.StartSend? && Step(s, op).Some?
    ensures Valid(Step(s, op).value)
  {
    assert StreamOk(s, op.id);
    var before := SceneOf(s, op.id);
    StartLinked(before, op.env);
    StartSafe(before, op.env);
    StartWiring(before, op.env);
    SameWiringWired(before.stream, Start(before, op.env).value.stream);
    StartDecided(before, op.env);
    StartFollows(before, op.env);
    StartSupplied(before, op.env);
    PutKeeps(s, op.id, before, Start(before, op.env).value);
  }

  lemma StopWiring(sc: Scene)
    ensures WiringOf(Stop(sc).stream) == WiringOf(sc.stream) && Stop(sc).stream.config == sc.stream.config
  {
  }

  lemma StopKeeps(s: Session, id: nat)
    requires Valid(s) && id in s.streams
    ensures Valid(Put(s, id, Stop(SceneOf(s, id))))
  {
    assert StreamOk(s, id);
    var before := SceneOf(s, id);
    StopLinked(before);
    StopSafe(before);
    StopWiring(before);
    SameWiringWired(before.stream, Stop(before).stream);
    PutKeeps(s, id, before, Stop(before));
  }

  lemma ForgetKeeps(s: Session, id: nat)
    requires Valid(s) && id !in s.audio.sending && id !in s.allocator
    ensures Valid(s.(streams := s.streams - {id}))
  {
    StreamsStay(s, s.(streams := s.streams - {id}));
  }

  lemma DestroyKeeps(s: Session, id: nat)
    requires Valid(s) && id in s.streams
    ensures Valid(Step(s, DestroySend(id)).value)
  {
    StopKeeps(s, id);
    StreamLinked(s, id);
    StopLinked(SceneOf(s, id));
    ForgetKeeps(Put(s, id, Stop(SceneOf(s, id))), id);
  }

  lemma OverheadSupplied(sc: Scene, rtpOverhead: nat, granted: int)
    requires Supplied(sc.stream) && UpdateOverhead(sc, rtpOverhead, granted).Some?
    ensures Supplied(UpdateOverhead(sc, rtpOverhead, granted).value.stream)
  {
  }

  lemma OverheadKeeps(s: Session, id: nat, before: Scene, rtpOverhead: nat, granted: int)
    requires Valid(s) && id in s.streams && before == SceneOf(s, id).(stream := before.stream)
    requires before.stream == s.streams[id].(transportOverhead := before.stream.transportOverhead)
    requires UpdateOverhead(before, rtpOverhead, granted).Some?
    ensures Valid(Put(s, id, UpdateOverhead(before, rtpOverhead, granted).value))
  {
    assert StreamOk(s, id);
    assert WiringOf(before.stream) == WiringOf(s.streams[id]);
    OverheadInOrder(before, rtpOverhead, granted);
    PutKeeps(s, id, before, UpdateOverhead(before, rtpOverhead, granted).value);
  }

  lemma OverheadInOrder(sc: Scene, rtpOverhead: nat, granted: int)
    requires InOrder(sc) && UpdateOverhead(sc, rtpOverhead, granted).Some?
    ensures var after := UpdateOverhead(sc, rtpOverhead, granted).value;
            InOrder(after) && OthersKept(sc, after) && after.audio == sc.audio
  {
    var after := UpdateOverhead(sc, rtpOverhead, granted).value;
    assert Linked(after) && OthersKept(sc, after) && after.audio == sc.audio by { OverheadLinked(sc, rtpOverhead, granted); }
    assert Wired(after.stream) by { OverheadKeepsWiring(sc, rtpOverhead, granted); }
    assert Decided(after.stream) by { OverheadKeepsRegistration(sc, rtpOverhead, granted); }
    assert Follows(after) by { OverheadFollows(sc, rtpOverhead, granted); }
    assert Supplied(after.stream) by { OverheadSupplied(sc, rtpOverhead, granted); }
  }

  lemma BitrateUpdatedOk(sc: Scene, target: int)
    requires InOrder(sc)
    ensures var after := sc.(stream := BitrateUpdated(sc.stream, target));
            InOrder(after) && OthersKept(sc, after)
  {
  }

  lemma BitrateKeeps(s: Session, id: nat, target: int)
    requires Valid(s) && id in s.streams
    ensures Valid(Put(s, id, SceneOf(s, id).(stream := BitrateUpdated(s.streams[id], target))))
  {
    assert StreamOk(s, id);
    BitrateUpdatedOk(SceneOf(s, id), target);
    PutKeeps(s, id, SceneOf(s, id), SceneOf(s, id).(stream := BitrateUpdated(s.streams[id], target)));
  }

  lemma StopReceiverKeeps(s: Session, id: nat)
    requires Valid(s) && id in s.receivers
    ensures Valid(StopReceiver(s, id))
  {
    if s.receivers[id] {
      var op := AudioStates.RemoveReceiving(id);
      AudioStates.StepSafe(s.audio, op);
      AudioKeeps(s, AudioStates.Step(s.audio, op), s.receivers[id := false]);
    }
  }

  lemma AudioOpKeeps(s: Session, op: AudioStates.Op)
    requires Valid(s) && (op.SetPlayout? || op.SetRecording? || op.SwapStereo?)
    ensures Valid(s.(audio := AudioStates.Step(s.audio, op)))
  {
    AudioStates.StepSafe(s.audio, op);
    AudioKeeps(s, AudioStates.Step(s.audio, op), s.receivers);
  }

  lemma StartReceiveKeeps(s: Session, id: nat, mixerOk: bool, reply: AudioStates.Reply)
    requires Valid(s) && id in s.receivers
    ensures Valid(Step(s, StartReceive(id, mixerOk, reply)).value)
  {
    if !s.receivers[id] {
      var op := AudioStates.AddReceiving(id, mixerOk, reply);
      AudioStates.StepSafe(s.audio, op);
      AudioKeeps(s, AudioStates.Step(s.audio, op), s.receivers[id := true]);
    }
  }

  lemma DestroyReceiverKeeps(s: Session, id: nat)
    requires Valid(s) && id in s.receivers
    ensures Valid(Step(s, DestroyReceiver(id)).value)
  {
    StopReceiverKeeps(s, id);
    AudioKeeps(StopReceiver(s, id), StopReceiver(s, id).audio, StopReceiver(s, id).receivers - {id});
  }

  lemma SendOpKeeps(s: Session, op: Op)
    requires Valid(s) && Step(s, op).Some?
    requires op.StopSend? || op.TransportOverhead? || op.Rtcp? || op.BitrateUpdate? || op.DestroySend?
    ensures Valid(Step(s, op).value)
  {
    match op
    case StopSend(id) => StopKeeps(s, id);
    case TransportOverhead(id, bytes, env) =>
      var sc := SceneOf(s, id);
      OverheadKeeps(s, id, sc.(stream := sc.stream.(transportOverhead := bytes)), env.rtpOverhead, env.granted);
    case Rtcp(id, env) => OverheadKeeps(s, id, SceneOf(s, id), env.rtpOverhead, env.granted);
    case BitrateUpdate(id, target) => BitrateKeeps(s, id, target);
    case DestroySend(id) => DestroyKeeps(s, id);
  }

  lemma StepKeeps(s: Session, op: Op)
    requires Valid(s) && Step(s, op).Some?
    ensures Valid(Step(s, op).value)
  {
    match op
    case Create(_, _, _, _) => CreateKeeps(s, op);
    case Reconfigure(_, _, _) => ReconfigureKeeps(s, op);
    case StartSend(_, _) => StartKeeps(s, op);
    case CreateReceiver(id) => AudioKeeps(s, s.audio, s.receivers[id := false]);
    case StartReceive(id, mixerOk, reply) => StartReceiveKeeps(s, id, mixerOk, reply);
    case StopReceive(id) => StopReceiverKeeps(s, id);
    case DestroyReceiver(id) => DestroyReceiverKeeps(s, id);
    case SetPlayout(enabled, reply) => AudioOpKeeps(s, AudioStates.SetPlayout(enabled, reply));
    case SetRecording(enabled, reply) => AudioOpKeeps(s, AudioStates.SetRecording(enabled, reply));
    case SwapStereo(enabled) => AudioOpKeeps(s, AudioStates.SwapStereo(enabled));
    case _ => SendOpKeeps(s, op);
  }

  /** The state that a sequence of operations ends in, if all of them complete. */
  function Run(ops: seq<Op>): Option<Session> {
    if ops == [] then Some(EMPTY)
    else
      var before := Run(ops[..|ops| - 1]);
      if before.None? then None else Step(before.value, ops[|ops| - 1])
  }

  lemma {:induction false} RunValid(ops: seq<Op>)
    requires Run(ops).Some?
    ensures Valid(Run(ops).value)
  {
    if ops != [] {
      RunValid(ops[..|ops| - 1]);
      StepKeeps(Run(ops[..|ops| - 1]).value, ops[|ops| - 1]);
    }
  }

  // -------------------------------------------------------------------- the theorems

  /** After every completed run, a stream is among the sending streams of the
      audio state exactly while it is sending, with its current encoder rate and
      channels; the transport holds each sending stream once, with the largest
      rate and channel count; and the allocator holds exactly the registered
      streams, which are sending. */
  lemma SessionLinks(ops: seq<Op>)
    requires Run(ops).Some?
    ensures var s := Run(ops).value;
            && s.audio.sending == (map id | id in s.streams && s.streams[id].sending :: s.streams[id].encoder)
            && AudioStates.Serves(s.audio.capture, s.audio.sending)
            && (forall id :: id in s.allocator <==> id in s.streams && s.streams[id].registered)
            && (forall id | id in s.allocator :: s.streams[id].sending)
            && (forall id | id in s.streams ::
                  && s.streams[id].channel.started == s.streams[id].sending
                  && s.streams[id].channel.packetOverhead == s.streams[id].overhead)
            && (forall id :: id in s.audio.receiving <==> id in s.receivers && s.receivers[id])
  {
    RunValid(ops);
    var s := Run(ops).value;
    var expected := map id | id in s.streams && s.streams[id].sending :: s.streams[id].encoder;
    forall id | id in s.streams
      ensures s.streams[id].sending <==> id in s.audio.sending
      ensures id in s.audio.sending ==> s.audio.sending[id] == s.streams[id].encoder
      ensures s.streams[id].registered <==> id in s.allocator
      ensures s.streams[id].registered ==> s.streams[id].sending
      ensures s.streams[id].channel.started == s.streams[id].sending
      ensures s.streams[id].channel.packetOverhead == s.streams[id].overhead
    {
      StreamLinked(s, id);
    }
    assert s.audio.sending == expected;
  }

  /** The stream is with the allocator, and the RTP module's flag says so, exactly
      as the deciding configuration asked. That is what the current configuration
      asks for exactly when StillAsked; where feedback is required and the DSCP
      mark never changes, always. */
  ghost predicate RegisteredAsDecided(s: Session, id: nat)
    requires id in s.streams
  {
    var st := s.streams[id];
    && 1 <= st.startedAt <= |st.history| && st.config == st.history[|st.history| - 1]
    && (id in s.allocator <==> Decision(st.history, st.startedAt, st.settings.withoutFeedback))
    && (st.rtp.partOfAllocation <==> id in s.allocator)
    && ((id in s.allocator <==> Asks(st.config, true)) <==>
        StillAsked(st.history, st.startedAt, st.settings.withoutFeedback))
    && (!st.settings.withoutFeedback && SameDscp(st.history) ==> (id in s.allocator <==> Asks(st.config, true)))
  }

  /** So it is for every sending stream in every completed run. */
  lemma SessionRegistration(ops: seq<Op>, id: nat)
    requires Run(ops).Some? && id in Run(ops).value.streams && Run(ops).value.streams[id].sending
    ensures RegisteredAsDecided(Run(ops).value, id)
  {
    RunValid(ops);
    ValidRegistration(Run(ops).value, id);
  }

  lemma ValidRegistration(s: Session, id: nat)
    requires Valid(s) && id in s.streams && s.streams[id].sending
    ensures RegisteredAsDecided(s, id)
  {
    var st := s.streams[id];
    StreamLinked(s, id);
    StreamWired(s, id);
    StreamDecided(s, id);
    RegularExactly(st);
    if !st.settings.withoutFeedback && SameDscp(st.history) {
      SteadyStillAsked(st.history, st.startedAt);
    }
  }

  /** In every completed run the allocator holds for a stream what follows from its
      current configuration and overhead and the encoder's ranges at the last
      registration. Its limits are the stream's own exactly when the ranges read
      since give the same ones; so always, if those are unchanged. */
  lemma SessionLimits(ops: seq<Op>, id: nat)
    requires Run(ops).Some? && id in Run(ops).value.allocator
    ensures var s := Run(ops).value;
            && id in s.streams
            && var st, a := s.streams[id], s.allocator[id];
               && IsAllocation(a, st, st.registeredWith)
               && (AreLimits(st, CurrentRanges(st), Rates(a.minBps, a.maxBps)) <==>
                   LimitsWith(st, CurrentRanges(st)) == LimitsWith(st, st.registeredWith))
  {
    RunValid(ops);
    ValidLimits(Run(ops).value, id);
  }

  lemma ValidLimits(s: Session, id: nat)
    requires Valid(s) && id in s.allocator
    ensures id in s.streams
    ensures var st, a := s.streams[id], s.allocator[id];
            && IsAllocation(a, st, st.registeredWith)
            && (AreLimits(st, CurrentRanges(st), Rates(a.minBps, a.maxBps)) <==>
                LimitsWith(st, CurrentRanges(st)) == LimitsWith(st, st.registeredWith))
  {
    StreamLinked(s, id);
    StreamFollows(s, id);
    AllocationOf(SceneOf(s, id));
  }

  lemma AllocationOf(sc: Scene)
    requires Follows(sc) && sc.stream.registered
    ensures var st, a := sc.stream, sc.allocator[sc.stream.id];
            && IsAllocation(a, st, st.registeredWith)
            && (AreLimits(st, CurrentRanges(st), Rates(a.minBps, a.maxBps)) <==>
                LimitsWith(st, CurrentRanges(st)) == LimitsWith(st, st.registeredWith))
  {
    var st, a := sc.stream, sc.allocator[sc.stream.id];
    AllocationExactly(AsRegistered(st));
    LimitsExactly(st, CurrentRanges(st));
    if AreLimits(st, CurrentRanges(st), Rates(a.minBps, a.maxBps)) {
      AreLimitsUnique(st, CurrentRanges(st), Rates(a.minBps, a.maxBps), LimitsWith(st, CurrentRanges(st)).value);
    }
  }

  /** In every completed run a stream's encoder is the one created for the last
      configuration that needed one and got it. */
  lemma SessionEncoder(ops: seq<Op>, id: nat)
    requires Run(ops).Some? && id in Run(ops).value.streams
    ensures Supplied(Run(ops).value.streams[id])
  {
    RunValid(ops);
    StreamSupplied(Run(ops).value, id);
  }

  /** However often a stream was reconfigured on the way, it agrees with one
      constructed from its last configuration, and that construction completes. */
  lemma SessionAgreesWithFresh(ops: seq<Op>, id: nat, env: Env)
    requires Run(ops).Some? && id in Run(ops).value.streams
    ensures var s := Run(ops).value;
            var direct := SendStreamFresh.Construct(id, s.streams[id].settings, s.streams[id].config, env, s.audio, s.allocator);
            direct.Some? && SendStreamFresh.Agree(s.streams[id], direct.value.stream)
  {
    RunValid(ops);
    var s := Run(ops).value;
    StreamWired(s, id);
    SendStreamFresh.IncrementalAgreesWithFresh(s.streams[id], env, s.audio, s.allocator);
  }

  /** A frame recorded after any completed run is delivered once to each stream
      that is sending and to no other, at a rate that loses nothing that the
      stream's encoder could use unless it is the top native rate, and with all
      the recorded channels that the encoder could use. */
  lemma SessionCapture(ops: seq<Op>, inputRate: int, inputChannels: nat, frame: Frame, deliveries: seq<Delivery>)
    requires Run(ops).Some?
    requires var c := Run(ops).value.audio.capture;
             && IsCaptureRate(frame.sampleRateHz, Min(inputRate, c.sampleRateHz))
             && frame.numChannels == Min(inputChannels, c.numChannels)
             && FansOut(deliveries, c.senders, frame)
    ensures var s := Run(ops).value;
            && (forall d | d in deliveries :: d.frame == frame)
            && (forall k: nat :: multiset(Receivers(deliveries))[k] == if k in s.streams && s.streams[k].sending then 1 else 0)
            && (forall k | k in s.streams && s.streams[k].sending ::
                  && (frame.sampleRateHz == 48000 ||
                      Min(inputRate, s.streams[k].encoder.sampleRateHz) <= frame.sampleRateHz)
                  && Min(inputChannels, s.streams[k].encoder.numChannels) <= frame.numChannels <= inputChannels)
  {
    RunValid(ops);
    SessionLinks(ops);
    AudioStates.CaptureReachesSenders(Run(ops).value.audio, inputRate, inputChannels, frame, deliveries);
  }

  /** What the audio state checks when it is called: a receiving stream is added
      when it is not there, and whatever is removed is there. */
  predicate Admits(audio: AudioStates.State, call: AudioStates.Op) {
    match call
    case AddReceiving(id, _, _) => id !in audio.receiving
    case RemoveReceiving(id) => id in audio.receiving
    case RemoveSending(id) => id in audio.sending
    case _ => true
  }

  /** The call to the audio state that an operation makes, if any. */
  function AudioCall(s: Session, op: Op): Option<AudioStates.Op>
    requires Step(s, op).Some?
  {
    match op
    case Reconfigure(id, config, env) =>
      var st := s.streams[id];
      if st.sending && NeedsEncoder(st.config, config) && env.created.Some?
      then Some(AudioStates.AddSending(st.id, env.created.value, env.reply)) else None
    case StartSend(id, env) =>
      var st := s.streams[id];
      if st.sending then None else Some(AudioStates.AddSending(st.id, st.encoder, env.reply))
    case StopSend(id) => if s.streams[id].sending then Some(AudioStates.RemoveSending(s.streams[id].id)) else None
    case DestroySend(id) => if s.streams[id].sending then Some(AudioStates.RemoveSending(s.streams[id].id)) else None
    case StartReceive(id, mixerOk, reply) =>
      if s.receivers[id] then None else Some(AudioStates.AddReceiving(id, mixerOk, reply))
    case StopReceive(id) => if s.receivers[id] then Some(AudioStates.RemoveReceiving(id)) else None
    case DestroyReceiver(id) => if s.receivers[id] then Some(AudioStates.RemoveReceiving(id)) else None
    case SetPlayout(enabled, reply) => Some(AudioStates.SetPlayout(enabled, reply))
    case SetRecording(enabled, reply) => Some(AudioStates.SetRecording(enabled, reply))
    case SwapStereo(enabled) => Some(AudioStates.SwapStereo(enabled))
    case _ => None
  }

  lemma ConfigureAudio(sc: Scene, c: Config, first: bool, env: Env)
    requires Linked(sc) && Configure(sc, c, first, env).Some?
    ensures Configure(sc, c, first, env).value.audio ==
            if sc.stream.sending && NeedsEncoder(sc.stream.config, c) && env.created.Some?
            then AudioStates.Step(sc.audio, AudioStates.AddSending(sc.stream.id, env.created.value, env.reply))
            else sc.audio
  {
    var extended := sc.(stream := ConfigureExtensions(ConfigureChannel(sc.stream, c, first), c, first).value);
    var coded := ConfigureCodec(extended, c, env.created, env.reply);
    CodecLinked(extended, c, env.created, env.reply);
    OverheadLinked(coded, env.rtpOverhead, env.granted);
    var counted := UpdateOverhead(coded, env.rtpOverhead, env.granted).value;
    var ranged := counted.(stream := ReadRanges(counted.stream, env));
    if ranged.stream.sending {
      ReconfigureObserverLinked(ranged, c, env.regranted);
    }
  }

  lemma AudioCallIs(s: Session, op: Op)
    requires Valid(s) && Step(s, op).Some?
    ensures Step(s, op).value.audio ==
            if AudioCall(s, op).Some? then AudioStates.Step(s.audio, AudioCall(s, op).value) else s.audio
  {
    match op
    case Create(id, settings, config, env) =>
      ConfigureAudio(Scene(NewStream(id, settings, config), s.audio, s.allocator), config, true, env);
    case Reconfigure(id, config, env) =>
      StreamLinked(s, id);
      ConfigureAudio(SceneOf(s, id), config, false, env);
    case _ =>
  }

  /** In every run an operation makes at most this one call to the audio state,
      none of whose checks ever fails, and no stream is sending when it is
      destroyed. */
  lemma SessionChecks(ops: seq<Op>, op: Op)
    requires Run(ops).Some? && Step(Run(ops).value, op).Some?
    ensures var s := Run(ops).value;
            && Step(s, op).value.audio ==
               (if AudioCall(s, op).Some? then AudioStates.Step(s.audio, AudioCall(s, op).value) else s.audio)
            && (AudioCall(s, op).Some? ==> Admits(s.audio, AudioCall(s, op).value))
            && (op.DestroySend? ==> !Stop(SceneOf(s, op.id)).stream.sending)
  {
    RunValid(ops);
    var s := Run(ops).value;
    AudioCallIs(s, op);
    if op.StopSend? || op.DestroySend? {
      StreamLinked(s, op.id);
    }
  }

  /** When all streams are gone, so is everything they caused: what the audio
      state's destructor insists on, and an idle device and allocator besides. */
  lemma SessionQuiet(ops: seq<Op>)
    requires Run(ops).Some? && Run(ops).value.streams == map[] && Run(ops).value.receivers == map[]
    ensures var s := Run(ops).value;
            && s.audio.receiving == {} && s.audio.sending == map[] && !s.audio.pollerRunning
            && s.audio.device == AudioStates.Device(false, false) && s.audio.sources == {}
            && s.audio.capture.senders == [] && s.allocator == map[]
  {
    RunValid(ops);
    var s := Run(ops).value;
    assert s.audio.sending.Keys == {};
    assert s.allocator.Keys == {};
    if s.audio.capture.senders != [] {
      HeadIsMember(s.audio.capture.senders);
      assert false;
    }
  }
}
