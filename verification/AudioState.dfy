/** The shared audio state: it drives the playout and recording device, the null
    audio poller and the mixer, and tells the transport whom to send to. */
module AudioStates {
  import opened Common
  import opened AudioTransport

  datatype Properties = Properties(sampleRateHz: int, numChannels: nat)

  datatype Device = Device(playing: bool, recording: bool)

  /** The device's answers when it is initialised and started. */
  datatype Reply = Reply(initOk: bool, startOk: bool) {
    predicate Ok() { initOk && startOk }
  }

  datatype State = State(
    receiving: set<nat>,
    sending: map<nat, Properties>,
    recordingEnabled: bool,
    playoutEnabled: bool,
    pollerRunning: bool,
    device: Device,
    sources: set<nat>,
    capture: Capture)

  const INITIAL := State({}, map[], true, true, false, Device(false, false), {}, Capture([], 8000, 1, false))

  // ------------------------------------------------- what the transport is told

  predicate IsMin(s: set<nat>, m: nat) { m in s && forall x | x in s :: m <= x }

  lemma {:induction false} MinExists(s: set<nat>)
    requires s != {}
    ensures exists m: nat :: IsMin(s, m)
  {
    var m :| m in s;
    var rest := s - {m};
    assert s == rest + {m};
    if rest == {} {
      assert IsMin(s, m);
    } else {
      MinExists(rest);
      var n: nat :| IsMin(rest, n);
      assert IsMin(s, Min(m, n));
    }
  }

  function MinOf(s: set<nat>): (m: nat)
    requires s != {}
    ensures IsMin(s, m)
  {
    MinExists(s);
    var m :| m in s && IsMin(s, m);
    m
  }

  /** The members in ascending order: how an ordered map is walked. */
  function Ascending(s: set<nat>): (r: seq<nat>)
    ensures forall x :: x in r <==> x in s
    ensures Increasing(r)
  {
    if s == {} then []
    else
      var m, rest := MinOf(s), Ascending(s - {MinOf(s)});
      assert forall i | 0 <= i < |rest| :: rest[i] in s && m < rest[i];
      [m] + rest
  }

  predicate Increasing(r: seq<nat>) { forall i, j | 0 <= i < j < |r| :: r[i] < r[j] }

  function MaxRate(sending: map<nat, Properties>, keys: seq<nat>): int
    requires forall k | k in keys :: k in sending
  {
    if keys == [] then 8000
    else Max(MaxRate(sending, keys[..|keys| - 1]), sending[keys[|keys| - 1]].sampleRateHz)
  }

  function MaxChannels(sending: map<nat, Properties>, keys: seq<nat>): nat
    requires forall k | k in keys :: k in sending
  {
    if keys == [] then 1
    else Max(MaxChannels(sending, keys[..|keys| - 1]), sending[keys[|keys| - 1]].numChannels)
  }

  function CaptureFor(sending: map<nat, Properties>, swap: bool): Capture {
    var keys := Ascending(sending.Keys);
    Capture(keys, MaxRate(sending, keys), MaxChannels(sending, keys), swap)
  }

  /** The transport has every sending stream exactly once, the largest of 8000
      and all their rates, and the largest of 1 and all their channel counts. */
  ghost predicate Serves(c: Capture, sending: map<nat, Properties>) {
    && (forall k :: k in c.senders <==> k in sending)
    && Increasing(c.senders)
    && 8000 <= c.sampleRateHz
    && (forall k | k in sending :: sending[k].sampleRateHz <= c.sampleRateHz)
    && (c.sampleRateHz == 8000 || exists k :: k in sending && sending[k].sampleRateHz == c.sampleRateHz)
    && 1 <= c.numChannels
    && (forall k | k in sending :: sending[k].numChannels <= c.numChannels)
    && (c.numChannels == 1 || exists k :: k in sending && sending[k].numChannels == c.numChannels)
  }

  lemma {:induction false} MaximaOf(sending: map<nat, Properties>, keys: seq<nat>)
    requires forall k | k in keys :: k in sending
    ensures var rate, channels := MaxRate(sending, keys), MaxChannels(sending, keys);
            && 8000 <= rate && 1 <= channels
            && (forall k | k in keys :: sending[k].sampleRateHz <= rate && sending[k].numChannels <= channels)
            && (rate == 8000 || exists k :: k in keys && sending[k].sampleRateHz == rate)
            && (channels == 1 || exists k :: k in keys && sending[k].numChannels == channels)
  {
    if keys != [] {
      var prefix, last := keys[..|keys| - 1], keys[|keys| - 1];
      assert keys == prefix + [last];
      MaximaOf(sending, prefix);
    }
  }

  lemma CaptureServes(sending: map<nat, Properties>, swap: bool)
    ensures Serves(CaptureFor(sending, swap), sending)
  {
    MaximaOf(sending, Ascending(sending.Keys));
  }

  // ------------------------------------------------------------------ operations

  datatype Op =
    | SetPlayout(enabled: bool, reply: Reply)
    | SetRecording(enabled: bool, reply: Reply)
    | AddReceiving(stream: nat, mixerOk: bool, reply: Reply)
    | RemoveReceiving(stream: nat)
    | AddSending(stream: nat, properties: Properties, reply: Reply)
    | RemoveSending(stream: nat)
    | SwapStereo(enable: bool)

  function Step(s: State, op: Op): State {
    match op
    case SetPlayout(enabled, reply) =>
      s.(playoutEnabled := enabled,
         pollerRunning := s.receiving != {} && !enabled,
         device := s.device.(playing := enabled && (s.device.playing || (s.receiving != {} && reply.Ok()))))
    case SetRecording(enabled, reply) =>
      s.(recordingEnabled := enabled,
         device := s.device.(recording := enabled && (s.device.recording || (s.sending != map[] && reply.Ok()))))
    case AddReceiving(stream, mixerOk, reply) =>
      s.(receiving := s.receiving + {stream},
         sources := if mixerOk then s.sources + {stream} else s.sources,
         pollerRunning := !s.playoutEnabled,
         device := s.device.(playing := s.device.playing || (s.playoutEnabled && reply.Ok())))
    case RemoveReceiving(stream) =>
      var rest := s.receiving - {stream};
      s.(receiving := rest,
         sources := s.sources - {stream},
         pollerRunning := rest != {} && !s.playoutEnabled,
         device := s.device.(playing := rest != {} && s.device.playing))
    case AddSending(stream, properties, reply) =>
      var sending := s.sending[stream := properties];
      s.(sending := sending,
         capture := CaptureFor(sending, s.capture.swapStereo),
         device := s.device.(recording := s.device.recording || (s.recordingEnabled && reply.Ok())))
    case RemoveSending(stream) =>
      var rest := s.sending - {stream};
      s.(sending := rest,
         capture := CaptureFor(rest, s.capture.swapStereo),
         device := s.device.(recording := rest != map[] && s.device.recording))
    case SwapStereo(enable) => s.(capture := s.capture.(swapStereo := enable))
  }

  /** What holds after every operation of every run, whatever the device and the
      mixer answer. */
  ghost predicate Safe(s: State) {
    && (s.pollerRunning <==> s.receiving != {} && !s.playoutEnabled)
    && (s.device.playing ==> s.receiving != {} && s.playoutEnabled)
    && (s.device.recording ==> s.sending != map[] && s.recordingEnabled)
    && s.sources <= s.receiving
    && Serves(s.capture, s.sending)
  }

  /** And what holds besides when they never refuse. */
  ghost predicate Exact(s: State) {
    && (s.device.playing <==> s.receiving != {} && s.playoutEnabled)
    && (s.device.recording <==> s.sending != map[] && s.recordingEnabled)
    && s.sources == s.receiving
  }

  predicate Granted(op: Op) {
    match op
    case SetPlayout(_, reply) => reply.Ok()
    case SetRecording(_, reply) => reply.Ok()
    case AddReceiving(_, mixerOk, reply) => mixerOk && reply.Ok()
    case AddSending(_, _, reply) => reply.Ok()
    case _ => true
  }

  lemma StepSafe(s: State, op: Op)
    requires Safe(s)
    ensures Safe(Step(s, op))
    ensures !(Step(s, op).pollerRunning && Step(s, op).device.playing)
  {
    match op
    case AddSending(stream, properties, _) =>
      assert stream in s.sending[stream := properties];
      CaptureServes(s.sending[stream := properties], s.capture.swapStereo);
    case RemoveSending(stream) => CaptureServes(s.sending - {stream}, s.capture.swapStereo);
    case _ =>
  }

  lemma StepExact(s: State, op: Op)
    requires Safe(s) && Exact(s) && Granted(op)
    ensures Exact(Step(s, op))
  {
    if op.AddSending? { assert op.stream in Step(s, op).sending; }
  }

  function Run(ops: seq<Op>): State {
    if ops == [] then INITIAL else Step(Run(ops[..|ops| - 1]), ops[|ops| - 1])
  }

  /** The argument of the last SetPlayout, true if there was none. */
  function PlayoutAsked(ops: seq<Op>): bool {
    var k := LastWhere(ops, (op: Op) => op.SetPlayout?);
    k == -1 || ops[k].enabled
  }

  /** The argument of the last SetRecording, true if there was none. */
  function RecordingAsked(ops: seq<Op>): bool {
    var k := LastWhere(ops, (op: Op) => op.SetRecording?);
    k == -1 || ops[k].enabled
  }

  /** The argument of the last SwapStereo, false if there was none. */
  function SwapAsked(ops: seq<Op>): bool {
    var k := LastWhere(ops, (op: Op) => op.SwapStereo?);
    k != -1 && ops[k].enable
  }

  /** The last operation about this receiving stream added it. */
  function ReceivingAsked(ops: seq<Op>, id: nat): bool {
    var k := LastWhere(ops, (op: Op) => (op.AddReceiving? || op.RemoveReceiving?) && op.stream == id);
    k != -1 && ops[k].AddReceiving?
  }

  /** What it was last added with, if the last operation about this sending
      stream added it. */
  function SendingAsked(ops: seq<Op>, id: nat): Option<Properties> {
    var k := LastWhere(ops, (op: Op) => (op.AddSending? || op.RemoveSending?) && op.stream == id);
    if k != -1 && ops[k].AddSending? then Some(ops[k].properties) else None
  }

  /** The mixer took this stream when it was added, and it was not removed since. */
  function SourceAsked(ops: seq<Op>, id: nat): bool {
    var k := LastWhere(ops, (op: Op) =>
      ((op.AddReceiving? && op.mixerOk) || op.RemoveReceiving?) && op.stream == id);
    k != -1 && ops[k].AddReceiving?
  }

  lemma AskedStep(ops: seq<Op>)
    requires ops != []
    ensures var prefix, last := ops[..|ops| - 1], ops[|ops| - 1];
            && PlayoutAsked(ops) == (if last.SetPlayout? then last.enabled else PlayoutAsked(prefix))
            && RecordingAsked(ops) == (if last.SetRecording? then last.enabled else RecordingAsked(prefix))
            && SwapAsked(ops) == (if last.SwapStereo? then last.enable else SwapAsked(prefix))
  {
  }

  lemma StreamAskedStep(ops: seq<Op>, id: nat)
    requires ops != []
    ensures var prefix, last := ops[..|ops| - 1], ops[|ops| - 1];
            && ReceivingAsked(ops, id) ==
               (if (last.AddReceiving? || last.RemoveReceiving?) && last.stream == id then last.AddReceiving?
                else ReceivingAsked(prefix, id))
            && SourceAsked(ops, id) ==
               (if last.AddReceiving? && last.mixerOk && last.stream == id then true
                else if last.RemoveReceiving? && last.stream == id then false
                else SourceAsked(prefix, id))
            && SendingAsked(ops, id) ==
               (if last.AddSending? && last.stream == id then Some(last.properties)
                else if last.RemoveSending? && last.stream == id then None
                else SendingAsked(prefix, id))
  {
  }

  /** The state's settings and streams are what was last asked for. */
  ghost predicate AsAsked(s: State, ops: seq<Op>) {
    && s.playoutEnabled == PlayoutAsked(ops)
    && s.recordingEnabled == RecordingAsked(ops)
    && s.capture.swapStereo == SwapAsked(ops)
    && (forall id :: id in s.receiving <==> ReceivingAsked(ops, id))
    && (forall id :: id in s.sources <==> SourceAsked(ops, id))
    && (forall id :: (id in s.sending <==> SendingAsked(ops, id).Some?) &&
                     (id in s.sending ==> s.sending[id] == SendingAsked(ops, id).value))
  }

  lemma {:induction false} RunAsAsked(ops: seq<Op>)
    ensures AsAsked(Run(ops), ops)
  {
    if ops != [] {
      RunAsAsked(ops[..|ops| - 1]);
      AskedStep(ops);
      forall id: nat
        ensures id in Run(ops).receiving <==> ReceivingAsked(ops, id)
        ensures id in Run(ops).sources <==> SourceAsked(ops, id)
        ensures id in Run(ops).sending <==> SendingAsked(ops, id).Some?
        ensures id in Run(ops).sending ==> Run(ops).sending[id] == SendingAsked(ops, id).value
      {
        StreamAskedStep(ops, id);
      }
    }
  }

  /** The device is told to start playing, and can. */
  predicate StartsPlayout(op: Op) {
    (op.AddReceiving? || op.SetPlayout?) && op.reply.initOk && op.reply.startOk
  }

  predicate StartsRecording(op: Op) {
    (op.AddSending? || op.SetRecording?) && op.reply.initOk && op.reply.startOk
  }

  ghost predicate PlayoutWanted(ops: seq<Op>) { PlayoutAsked(ops) && exists id: nat :: ReceivingAsked(ops, id) }

  ghost predicate RecordingWanted(ops: seq<Op>) { RecordingAsked(ops) && exists id: nat :: SendingAsked(ops, id).Some? }

  /** The device was started, and has been wanted ever since. */
  ghost predicate PlayingSince(ops: seq<Op>, k: nat) {
    k < |ops| && StartsPlayout(ops[k]) && forall n: nat | k < n <= |ops| :: PlayoutWanted(ops[..n])
  }

  ghost predicate RecordingSince(ops: seq<Op>, k: nat) {
    k < |ops| && StartsRecording(ops[k]) && forall n: nat | k < n <= |ops| :: RecordingWanted(ops[..n])
  }

  /** One step: the device runs if it is wanted and ran before or is started. */
  lemma DeviceStep(s: State, op: Op)
    requires Safe(s)
    ensures var t := Step(s, op);
            && (t.device.playing <==> t.receiving != {} && t.playoutEnabled && (s.device.playing || StartsPlayout(op)))
            && (t.device.recording <==>
                t.sending != map[] && t.recordingEnabled && (s.device.recording || StartsRecording(op)))
  {
    if op.AddSending? { assert op.stream in Step(s, op).sending; }
  }

  lemma Wanted(ops: seq<Op>)
    ensures PlayoutWanted(ops) <==> Run(ops).receiving != {} && Run(ops).playoutEnabled
    ensures RecordingWanted(ops) <==> Run(ops).sending != map[] && Run(ops).recordingEnabled
  {
    RunAsAsked(ops);
    var s := Run(ops);
    if s.sending != map[] {
      assert s.sending.Keys != {};
      var id :| id in s.sending.Keys;
      assert SendingAsked(ops, id).Some?;
    }
  }

  lemma SinceStep(ops: seq<Op>, k: nat)
    requires ops != []
    ensures var prefix, last := ops[..|ops| - 1], ops[|ops| - 1];
            && (PlayingSince(ops, k) <==>
                PlayoutWanted(ops) && (PlayingSince(prefix, k) || (k == |ops| - 1 && StartsPlayout(last))))
            && (RecordingSince(ops, k) <==>
                RecordingWanted(ops) && (RecordingSince(prefix, k) || (k == |ops| - 1 && StartsRecording(last))))
  {
    var prefix := ops[..|ops| - 1];
    assert ops[..|ops|] == ops;
    forall n: nat | n <= |prefix| ensures ops[..n] == prefix[..n] {
    }
  }

  /** Over every run the device plays exactly if some operation started it since
      when playout has been asked for and there have been receiving streams all
      the time; and likewise for recording. */
  lemma {:induction false} RunDevice(ops: seq<Op>)
    ensures Run(ops).device.playing <==> exists k: nat :: PlayingSince(ops, k)
    ensures Run(ops).device.recording <==> exists k: nat :: RecordingSince(ops, k)
  {
    if ops != [] {
      var prefix, last := ops[..|ops| - 1], ops[|ops| - 1];
      RunDevice(prefix);
      RunInvariant(prefix);
      DeviceStep(Run(prefix), last);
      Wanted(ops);
      forall k: nat
        ensures PlayingSince(ops, k) <==>
                PlayoutWanted(ops) && (PlayingSince(prefix, k) || (k == |ops| - 1 && StartsPlayout(last)))
        ensures RecordingSince(ops, k) <==>
                RecordingWanted(ops) && (RecordingSince(prefix, k) || (k == |ops| - 1 && StartsRecording(last)))
      {
        SinceStep(ops, k);
      }
      assert PlayingSince(ops, |ops| - 1) <==> PlayoutWanted(ops) && (PlayingSince(prefix, |ops| - 1) || StartsPlayout(last));
      assert RecordingSince(ops, |ops| - 1) <==>
             RecordingWanted(ops) && (RecordingSince(prefix, |ops| - 1) || StartsRecording(last));
    }
  }

  /** Playout and recording over every run, in terms of what was last asked for:
      the poller runs exactly when there are receiving streams and playout is
      disabled, the device plays only when there are receiving streams and
      playout is enabled - exactly then, if it never refuses - and likewise for
      recording. */
  lemma RunSafe(ops: seq<Op>)
    ensures Safe(Run(ops)) && AsAsked(Run(ops), ops)
    ensures Run(ops).pollerRunning <==> !PlayoutAsked(ops) && exists id: nat :: ReceivingAsked(ops, id)
    ensures Run(ops).device.playing ==> PlayoutAsked(ops) && exists id: nat :: ReceivingAsked(ops, id)
    ensures Run(ops).device.recording ==> RecordingAsked(ops) && exists id: nat :: SendingAsked(ops, id).Some?
    ensures (forall op | op in ops :: Granted(op)) ==>
              && Exact(Run(ops))
              && (Run(ops).device.playing <==> PlayoutAsked(ops) && exists id: nat :: ReceivingAsked(ops, id))
              && (Run(ops).device.recording <==> RecordingAsked(ops) && exists id: nat :: SendingAsked(ops, id).Some?)
  {
    RunInvariant(ops);
    Wanted(ops);
    RunAsAsked(ops);
  }

  lemma {:induction false} RunInvariant(ops: seq<Op>)
    ensures Safe(Run(ops))
    ensures (forall op | op in ops :: Granted(op)) ==> Exact(Run(ops))
  {
    if ops == [] {
    } else {
      var prefix, last := ops[..|ops| - 1], ops[|ops| - 1];
      RunInvariant(prefix);
      StepSafe(Run(prefix), last);
      if forall op | op in ops :: Granted(op) {
        assert forall op | op in prefix :: op in ops;
        assert last in ops;
        StepExact(Run(prefix), last);
      }
    }
  }

  /** Capture end to end: a recorded frame reaches each sending stream exactly
      once and no other, at a rate that loses nothing that stream's encoder could
      have used, unless it is the top native rate, and with all the channels it
      could have used. */
  lemma CaptureReachesSenders(s: State, inputRate: int, inputChannels: nat, frame: Frame, deliveries: seq<Delivery>)
    requires Safe(s)
    requires IsCaptureRate(frame.sampleRateHz, Min(inputRate, s.capture.sampleRateHz))
    requires frame.numChannels == Min(inputChannels, s.capture.numChannels)
    requires FansOut(deliveries, s.capture.senders, frame)
    ensures forall d | d in deliveries :: d.frame == frame
    ensures forall k: nat :: multiset(Receivers(deliveries))[k] == if k in s.sending then 1 else 0
    ensures forall k | k in s.sending ::
              && (frame.sampleRateHz == 48000 || Min(inputRate, s.sending[k].sampleRateHz) <= frame.sampleRateHz)
              && Min(inputChannels, s.sending[k].numChannels) <= frame.numChannels <= inputChannels
  {
    forall k: nat
      ensures multiset(Receivers(deliveries))[k] == if k in s.sending then 1 else 0
    {
      CountInDistinct(s.capture.senders, k);
    }
  }

  lemma {:induction false} CountInDistinct(s: seq<nat>, k: nat)
    requires Increasing(s)
    ensures multiset(s)[k] == if k in s then 1 else 0
  {
    if s != [] {
      var tail := s[1..];
      assert s == [s[0]] + tail;
      assert forall i | 0 <= i < |tail| :: s[0] < tail[i];
      CountInDistinct(tail, k);
    }
  }

  // ----------------------------------------------------------------------- class

  class AudioState {
    var receivingStreams: set<nat>
    var sendingStreams: map<nat, Properties>
    var recordingEnabled: bool
    var playoutEnabled: bool
    var nullAudioPollerRunning: bool
    var device: Device
    var mixerSources: set<nat>
    const audioTransport: AudioTransport

    function View(): State
      reads this, audioTransport
    {
      State(receivingStreams, sendingStreams, recordingEnabled, playoutEnabled, nullAudioPollerRunning, device,
            mixerSources, audioTransport.View())
    }

    constructor ()
      ensures View() == INITIAL && fresh(audioTransport)
    {
      receivingStreams, sendingStreams := {}, map[];
      recordingEnabled, playoutEnabled := true, true;
      nullAudioPollerRunning, device, mixerSources := false, Device(false, false), {};
      audioTransport := new AudioTransport();
    }

    method UpdateNullAudioPollerState()
      modifies this`nullAudioPollerRunning
      ensures nullAudioPollerRunning == (receivingStreams != {} && !playoutEnabled)
    {
      if receivingStreams != {} && !playoutEnabled {
        if !nullAudioPollerRunning {
          nullAudioPollerRunning := true;
        }
      } else {
        nullAudioPollerRunning := false;
      }
    }

    method StartPlayoutUnlessPlaying(reply: Reply)
      modifies this`device
      ensures device == old(device).(playing := old(device).playing || reply.Ok())
    {
      if !device.playing {
        if reply.initOk {
          device := device.(playing := reply.startOk);
        }
      }
    }

    method StartRecordingUnlessRecording(reply: Reply)
      modifies this`device
      ensures device == old(device).(recording := old(device).recording || reply.Ok())
    {
      if !device.recording {
        if reply.initOk {
          device := device.(recording := reply.startOk);
        }
      }
    }

    method SetPlayout(enabled: bool, reply: Reply)
      modifies this
      ensures View() == Step(old(View()), Op.SetPlayout(enabled, reply))
    {
      if enabled {
        if receivingStreams != {} {
          StartPlayoutUnlessPlaying(reply);
        }
      } else {
        device := device.(playing := false);
      }
      playoutEnabled := enabled;
      UpdateNullAudioPollerState();
    }

    method AddReceivingStream(stream: nat, mixerOk: bool, reply: Reply)
      modifies this
      ensures View() == Step(old(View()), AddReceiving(stream, mixerOk, reply))
    {
      receivingStreams := receivingStreams + {stream};
      if mixerOk {
        mixerSources := mixerSources + {stream};
      }
      if playoutEnabled {
        StartPlayoutUnlessPlaying(reply);
      }
      UpdateNullAudioPollerState();
    }

    method RemoveReceivingStream(stream: nat)
      modifies this
      ensures View() == Step(old(View()), RemoveReceiving(stream))
    {
      receivingStreams := receivingStreams - {stream};
      mixerSources := mixerSources - {stream};
      if receivingStreams == {} {
        device := device.(playing := false);
      }
      UpdateNullAudioPollerState();
    }

    method SetRecording(enabled: bool, reply: Reply)
      modifies this
      ensures View() == Step(old(View()), Op.SetRecording(enabled, reply))
    {
      if enabled {
        if sendingStreams != map[] {
          StartRecordingUnlessRecording(reply);
        }
      } else {
        device := device.(recording := false);
      }
      recordingEnabled := enabled;
    }

    method AddSendingStream(stream: nat, properties: Properties, reply: Reply)
      modifies this, audioTransport
      ensures View() == Step(old(View()), AddSending(stream, properties, reply))
    {
      sendingStreams := sendingStreams[stream := properties];
      UpdateAudioTransportWithSendingStreams();
      if recordingEnabled {
        StartRecordingUnlessRecording(reply);
      }
    }

    method RemoveSendingStream(stream: nat)
      modifies this, audioTransport
      ensures View() == Step(old(View()), RemoveSending(stream))
    {
      sendingStreams := sendingStreams - {stream};
      UpdateAudioTransportWithSendingStreams();
      if sendingStreams == map[] {
        device := device.(recording := false);
      }
    }

    method SetStereoChannelSwapping(enable: bool)
      modifies audioTransport
      ensures View() == Step(old(View()), SwapStereo(enable))
    {
      audioTransport.SetStereoChannelSwapping(enable);
    }

    method UpdateAudioTransportWithSendingStreams()
      modifies audioTransport
      ensures audioTransport.View() == CaptureFor(sendingStreams, old(audioTransport.swapStereoChannels))
    {
      var keys := Ascending(sendingStreams.Keys);
      var maxSampleRate, maxNumChannels, audioSenders := WalkStreams(sendingStreams, keys);
      audioTransport.UpdateAudioSenders(audioSenders, maxSampleRate, maxNumChannels);
    }
  }

  /** The loop over the sending streams, in the order of the map. */
  method WalkStreams(sending: map<nat, Properties>, keys: seq<nat>)
    returns (maxSampleRate: int, maxNumChannels: nat, audioSenders: seq<nat>)
    requires forall k | k in keys :: k in sending
    ensures audioSenders == keys
    ensures maxSampleRate == MaxRate(sending, keys) && maxNumChannels == MaxChannels(sending, keys)
  {
    audioSenders := [];
    maxSampleRate := 8000;
    maxNumChannels := 1;
    for i := 0 to |keys|
      invariant audioSenders == keys[..i]
      invariant maxSampleRate == MaxRate(sending, keys[..i])
      invariant maxNumChannels == MaxChannels(sending, keys[..i])
    {
      assert keys[..i + 1][..i] == keys[..i];
      audioSenders := audioSenders + [keys[i]];
      maxSampleRate := Max(maxSampleRate, sending[keys[i]].sampleRateHz);
      maxNumChannels := Max(maxNumChannels, sending[keys[i]].numChannels);
    }
    assert keys[..|keys|] == keys;
  }
}
