/** A session against what was asked of it: which streams there are, how they are
    configured and whether they run, read off the list of operations alone. */
module SessionRequests {
  import opened Common
  import opened SendStreamSpec
  import opened SendStreamInvariants
  import opened SendStreamBitrates
  import opened SendStreamCompletion
  import opened Session
  import AudioStates

  // ------------------------------------------------------------------ send streams

  /** A send stream as its user knows it. */
  datatype Track = Track(
    settings: Settings, configs: seq<Config>, sending: bool, transportOverhead: nat, overhead: nat)

  /** What an operation asks for about this stream. */
  function Followed(before: Option<Track>, op: Op, id: nat): Option<Track> {
    match op
    case Create(k, settings, config, env) =>
      if k == id then Some(Track(settings, [config], false, 0, env.rtpOverhead)) else before
    case Reconfigure(k, config, env) =>
      if k == id && before.Some?
      then Some(before.value.(configs := before.value.configs + [config],
                              overhead := before.value.transportOverhead + env.rtpOverhead))
      else before
    case StartSend(k, _) => if k == id && before.Some? then Some(before.value.(sending := true)) else before
    case StopSend(k) => if k == id && before.Some? then Some(before.value.(sending := false)) else before
    case TransportOverhead(k, bytes, env) =>
      if k == id && before.Some?
      then Some(before.value.(transportOverhead := bytes, overhead := bytes + env.rtpOverhead)) else before
    case Rtcp(k, env) =>
      if k == id && before.Some?
      then Some(before.value.(overhead := before.value.transportOverhead + env.rtpOverhead)) else before
    case DestroySend(k) => if k == id then None else before
    case _ => before
  }

  function SendAsked(ops: seq<Op>, id: nat): Option<Track> {
    if ops == [] then None else Followed(SendAsked(ops[..|ops| - 1], id), ops[|ops| - 1], id)
  }

  function TrackOf(st: Stream): Track {
    Track(st.settings, st.history, st.sending, st.transportOverhead, st.overhead)
  }

  function TrackIn(s: Session, id: nat): Option<Track> {
    if id in s.streams then Some(TrackOf(s.streams[id])) else None
  }

  lemma ConfigureTrack(sc: Scene, c: Config, first: bool, env: Env)
    requires Configure(sc, c, first, env).Some?
    ensures TrackOf(Configure(sc, c, first, env).value.stream) ==
            TrackOf(sc.stream).(configs := sc.stream.history + [c],
                                overhead := sc.stream.transportOverhead + env.rtpOverhead)
  {
    var coded := CodedScene(sc, c, first, env);
    OverheadCompletes(coded, env.rtpOverhead, env.granted);
    FinishTrack(UpdateOverhead(coded, env.rtpOverhead, env.granted).value, c, env);
  }

  lemma FinishTrack(sc: Scene, c: Config, env: Env)
    requires FinishConfigure(sc, c, env).Some?
    ensures TrackOf(FinishConfigure(sc, c, env).value.stream) ==
            TrackOf(sc.stream).(configs := sc.stream.history + [c])
  {
  }

  lemma StartTrack(sc: Scene, env: Env)
    requires Start(sc, env).Some?
    ensures TrackOf(Start(sc, env).value.stream) == TrackOf(sc.stream).(sending := true)
  {
  }

  lemma StopTrack(sc: Scene)
    ensures TrackOf(Stop(sc).stream) == TrackOf(sc.stream).(sending := false)
  {
  }

  lemma OverheadTrack(sc: Scene, rtpOverhead: nat, granted: int)
    requires UpdateOverhead(sc, rtpOverhead, granted).Some?
    ensures TrackOf(UpdateOverhead(sc, rtpOverhead, granted).value.stream) ==
            TrackOf(sc.stream).(overhead := sc.stream.transportOverhead + rtpOverhead)
  {
  }

  lemma ConfigureStepTrack(s: Session, op: Op, id: nat)
    requires (op.Create? || op.Reconfigure?) && Step(s, op).Some?
    ensures TrackIn(Step(s, op).value, id) == Followed(TrackIn(s, id), op, id)
  {
    if op.Create? {
      ConfigureTrack(Scene(NewStream(op.id, op.settings, op.config), s.audio, s.allocator), op.config, true, op.env);
      assert [] + [op.config] == [op.config];
    } else {
      ConfigureTrack(SceneOf(s, op.id), op.config, false, op.env);
    }
  }

  lemma OverheadStepTrack(s: Session, op: Op, id: nat)
    requires (op.TransportOverhead? || op.Rtcp?) && Step(s, op).Some?
    ensures TrackIn(Step(s, op).value, id) == Followed(TrackIn(s, id), op, id)
  {
    var sc := SceneOf(s, op.id);
    if op.Rtcp? {
      OverheadTrack(sc, op.env.rtpOverhead, op.env.granted);
    } else {
      OverheadTrack(sc.(stream := sc.stream.(transportOverhead := op.bytes)), op.env.rtpOverhead, op.env.granted);
    }
  }

  lemma StepTrack(s: Session, op: Op, id: nat)
    requires Step(s, op).Some?
    ensures TrackIn(Step(s, op).value, id) == Followed(TrackIn(s, id), op, id)
  {
    match op
    case Create(_, _, _, _) => ConfigureStepTrack(s, op, id);
    case Reconfigure(_, _, _) => ConfigureStepTrack(s, op, id);
    case StartSend(k, env) => StartTrack(SceneOf(s, k), env);
    case StopSend(k) => StopTrack(SceneOf(s, k));
    case TransportOverhead(_, _, _) => OverheadStepTrack(s, op, id);
    case Rtcp(_, _) => OverheadStepTrack(s, op, id);
    case _ =>
  }

  /** In every completed run there are exactly the send streams that were created
      and not destroyed, each with the settings and all the configurations it was
      given, sending exactly if it was last started, with the transport overhead
      that was last set, and a per-packet overhead that is the sum of that and of
      the RTP module's when it was last asked. */
  lemma {:induction false} SendersAsAsked(ops: seq<Op>, id: nat)
    requires Run(ops).Some?
    ensures TrackIn(Run(ops).value, id) == SendAsked(ops, id)
  {
    if ops != [] {
      SendersAsAsked(ops[..|ops| - 1], id);
      StepTrack(Run(ops[..|ops| - 1]).value, ops[|ops| - 1], id);
    }
  }

  /** In every completed run a rate from the allocator is forwarded to the channel
      of its stream unchanged where the stream has no limits, and else as the
      nearest rate within them. */
  lemma SessionForwards(ops: seq<Op>, id: nat, target: int)
    requires Run(ops).Some? && id in Run(ops).value.streams && PlausibleInputs(Run(ops).value.streams[id])
    ensures var st := Run(ops).value.streams[id];
            var after := Step(Run(ops).value, BitrateUpdate(id, target));
            && after.Some? && id in after.value.streams
            && after.value.streams[id].channel.target.Some?
            && IsForwarded(st, target, after.value.streams[id].channel.target.value)
  {
    ForwardedExactly(Run(ops).value.streams[id], target);
  }

  // --------------------------------------------------------------- receive streams

  function FollowedReceiver(before: Option<bool>, op: Op, id: nat): Option<bool> {
    match op
    case CreateReceiver(k) => if k == id then Some(false) else before
    case StartReceive(k, _, _) => if k == id && before.Some? then Some(true) else before
    case StopReceive(k) => if k == id && before.Some? then Some(false) else before
    case DestroyReceiver(k) => if k == id then None else before
    case _ => before
  }

  /** Whether there is this receive stream, and whether it was last started. */
  function ReceiveAsked(ops: seq<Op>, id: nat): Option<bool> {
    if ops == [] then None else FollowedReceiver(ReceiveAsked(ops[..|ops| - 1], id), ops[|ops| - 1], id)
  }

  function ReceiverIn(s: Session, id: nat): Option<bool> {
    if id in s.receivers then Some(s.receivers[id]) else None
  }

  lemma StepReceiver(s: Session, op: Op, id: nat)
    requires Step(s, op).Some?
    ensures ReceiverIn(Step(s, op).value, id) == FollowedReceiver(ReceiverIn(s, id), op, id)
  {
  }

  lemma {:induction false} ReceiversAsAsked(ops: seq<Op>, id: nat)
    requires Run(ops).Some?
    ensures ReceiverIn(Run(ops).value, id) == ReceiveAsked(ops, id)
  {
    if ops != [] {
      ReceiversAsAsked(ops[..|ops| - 1], id);
      StepReceiver(Run(ops[..|ops| - 1]).value, ops[|ops| - 1], id);
    }
  }

  // -------------------------------------------------------------- audio state

  function PlayoutAsked(ops: seq<Op>): bool {
    var k := LastWhere(ops, (op: Op) => op.SetPlayout?);
    k == -1 || ops[k].enabled
  }

  function RecordingAsked(ops: seq<Op>): bool {
    var k := LastWhere(ops, (op: Op) => op.SetRecording?);
    k == -1 || ops[k].enabled
  }

  lemma StepSettings(s: Session, op: Op)
    requires Valid(s) && Step(s, op).Some?
    ensures Step(s, op).value.audio.playoutEnabled == if op.SetPlayout? then op.enabled else s.audio.playoutEnabled
    ensures Step(s, op).value.audio.recordingEnabled == if op.SetRecording? then op.enabled else s.audio.recordingEnabled
  {
    AudioCallIs(s, op);
  }

  lemma {:induction false} SettingsAsAsked(ops: seq<Op>)
    requires Run(ops).Some?
    ensures Run(ops).value.audio.playoutEnabled == PlayoutAsked(ops)
    ensures Run(ops).value.audio.recordingEnabled == RecordingAsked(ops)
  {
    if ops != [] {
      var prefix := ops[..|ops| - 1];
      SettingsAsAsked(prefix);
      RunValid(prefix);
      StepSettings(Run(prefix).value, ops[|ops| - 1]);
    }
  }

  /** The null poller runs exactly if some receive stream was last started and
      playout was last disabled; the device plays only if one was and playout was
      not last disabled; and it records only if some send stream was last started
      and recording not last disabled. */
  ghost predicate RunsAsAsked(audio: AudioStates.State, ops: seq<Op>) {
    && (audio.pollerRunning <==> !PlayoutAsked(ops) && exists id: nat :: ReceiveAsked(ops, id) == Some(true))
    && (audio.device.playing ==> PlayoutAsked(ops) && exists id: nat :: ReceiveAsked(ops, id) == Some(true))
    && (audio.device.recording ==>
          RecordingAsked(ops) && exists id: nat :: SendAsked(ops, id).Some? && SendAsked(ops, id).value.sending)
  }

  /** So it is in every completed run. */
  lemma SessionPlayout(ops: seq<Op>)
    requires Run(ops).Some?
    ensures RunsAsAsked(Run(ops).value.audio, ops)
  {
    RunValid(ops);
    SettingsAsAsked(ops);
    ValidPlayout(Run(ops).value, ops);
  }

  lemma ValidPlayout(s: Session, ops: seq<Op>)
    requires Run(ops) == Some(s) && Valid(s)
    requires s.audio.playoutEnabled == PlayoutAsked(ops) && s.audio.recordingEnabled == RecordingAsked(ops)
    ensures RunsAsAsked(s.audio, ops)
  {
    ReceivingIs(s, ops);
    if s.audio.sending != map[] { SendingIs(s, ops); }
  }

  lemma ReceivingIs(s: Session, ops: seq<Op>)
    requires Run(ops) == Some(s) && Valid(s)
    ensures s.audio.receiving != {} <==> exists id: nat :: ReceiveAsked(ops, id) == Some(true)
  {
    forall id: nat ensures id in s.audio.receiving <==> ReceiveAsked(ops, id) == Some(true) {
      ReceiversAsAsked(ops, id);
    }
    if s.audio.receiving != {} {
      var id :| id in s.audio.receiving;
      assert ReceiveAsked(ops, id) == Some(true);
    }
  }

  lemma SendingIs(s: Session, ops: seq<Op>)
    requires Run(ops) == Some(s) && Valid(s) && s.audio.sending != map[]
    ensures exists id: nat :: SendAsked(ops, id).Some? && SendAsked(ops, id).value.sending
  {
    assert s.audio.sending.Keys != {};
    var id :| id in s.audio.sending.Keys;
    StreamLinked(s, id);
    SendersAsAsked(ops, id);
  }
}
