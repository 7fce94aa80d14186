/** A send stream as a value: its configuration and state, the records of the
    channel and the RTP module it configures, and what each of its operations
    does to them, to the shared audio state and to the bitrate allocator. An
    operation yields None where the program would stop at a failed check. */
module SendStreamSpec {
  import opened Common
  import opened HeaderExtensionMap
  import AudioStates

  // ------------------------------------------------------------------ parameters

  type Micros = x: int | 0 < x witness 1

  datatype FrameLengths = FrameLengths(shortest: Micros, longest: Micros)

  datatype Rates = Rates(min: int, max: int)

  datatype Codec = Codec(
    payloadType: int, format: string, redPayloadType: Option<int>, cngPayloadType: Option<int>,
    targetBitrateBps: Option<int>, nackEnabled: bool, enableNonSenderRtt: bool)

  /** Objects that the configuration only passes on are named by an address,
      0 for none; the list of header extensions counts only by the ids that
      FindExtensionIds extracts from it. */
  datatype Config = Config(
    cName: string, frameEncryptor: nat, frameTransformer: nat, extmapAllowMixed: bool, csrcs: seq<nat>,
    ids: ExtensionIds, mid: string,
    minBitrateBps: int, maxBitrateBps: int, bitratePriority: real, hasDscp: bool,
    networkAdaptor: Option<string>, codec: Option<Codec>)

  const DEFAULT_CONFIG := Config("", 0, 0, false, [], NO_IDS, "", -1, -1, 1.0, false, None, None)

  /** What the field trials fix for the life of a stream. */
  datatype Settings = Settings(
    withoutFeedback: bool, legacyOverhead: bool, enablePriority: bool,
    minBitrate: Option<int>, maxBitrate: Option<int>,
    priorityBitrate: int, priorityBitrateRaw: Option<int>, bitratePriority: Option<real>)

  // ----------------------------------------------------------------------- state

  datatype Channel = Channel(
    cName: string, frameEncryptor: nat, frameTransformer: nat, csrcs: seq<nat>, includeAudioLevel: bool,
    hasEncoder: bool, started: bool, packetOverhead: nat, target: Option<int>)

  datatype Rtp = Rtp(ids: Registry, extmapAllowMixed: bool, mid: string, partOfAllocation: bool)

  /** What the encoder says about itself. */
  datatype Ranges = Ranges(frameLengths: Option<FrameLengths>, bitrateRange: Option<Rates>)

  /** The last four fields only record the past: `history` lists every
      configuration the stream was given, the last being the current one;
      `answers`, what the encoder factory would have answered to each;
      `startedAt`, how many there were when the stream last started; and
      `registeredWith`, the ranges known at the last registration. */
  datatype Stream = Stream(
    id: nat, settings: Settings, config: Config, sending: bool, encoder: AudioStates.Properties,
    transportOverhead: nat, overhead: nat, registered: bool,
    frameLengths: Option<FrameLengths>, bitrateRange: Option<Rates>,
    channel: Channel, rtp: Rtp, history: seq<Config>,
    answers: seq<Option<AudioStates.Properties>>, startedAt: nat, registeredWith: Ranges)

  datatype Allocation = Allocation(minBps: int, maxBps: int, priorityBps: int, bitratePriority: real)

  /** One stream in its surroundings. */
  datatype Scene = Scene(stream: Stream, audio: AudioStates.State, allocator: map<nat, Allocation>)

  /** What foreign code answers during one operation: the encoder that the
      factory creates, the device, the RTP module's own overhead, the encoder's
      ranges, and the bitrates the allocator calls back with. */
  datatype Env = Env(
    created: Option<AudioStates.Properties>, reply: AudioStates.Reply, rtpOverhead: nat,
    frameLengths: Option<FrameLengths>, bitrateRange: Option<Rates>, granted: int, regranted: int)

  /** A stream about to be configured for the first time; its channel was
      constructed with some of that configuration already. */
  function NewStream(id: nat, settings: Settings, c: Config): Stream {
    Stream(id, settings, DEFAULT_CONFIG, false, AudioStates.Properties(0, 0), 0, 0, false, None, None,
           Channel("", c.frameEncryptor, c.frameTransformer, [], false, false, false, 0, None),
           Rtp(map[], c.extmapAllowMixed, "", false), [], [], 0, Ranges(None, None))
  }

  // --------------------------------------------------------------------- bitrates

  /** Bytes per duration, as bits per second, rounded down. */
  function Rate(bytes: nat, duration: Micros): int { bytes * 8000000 / duration }

  /** IPv4, UDP, SRTP and RTP headers in frames of 60 and of 20 milliseconds. */
  const LEGACY_MIN_OVERHEAD := (20 + 8 + 10 + 12) * 8000000 / 60000
  const LEGACY_MAX_OVERHEAD := (20 + 8 + 10 + 12) * 8000000 / 20000

  /** The configured limits, overridden by the field trial's and those by the
      encoder's, plus the overhead of the longest and of the shortest frames. */
  function LimitsFor(minBps: int, maxBps: int, settings: Settings, range: Option<Rates>,
                     lengths: Option<FrameLengths>, overhead: nat): Option<Rates> {
    if minBps < 0 || maxBps < 0 then None
    else
      var min := if range.Some? then range.value.min
                 else if settings.minBitrate.Some? then settings.minBitrate.value
                 else minBps;
      var max := if range.Some? then range.value.max
                 else if settings.maxBitrate.Some? then settings.maxBitrate.value
                 else maxBps;
      if max < min then None
      else if settings.legacyOverhead then Some(Rates(min + LEGACY_MIN_OVERHEAD, max + LEGACY_MIN_OVERHEAD))
      else if lengths.None? then None
      else Some(Rates(min + Rate(overhead, lengths.value.longest), max + Rate(overhead, lengths.value.shortest)))
  }

  function Constraints(st: Stream): Option<Rates> {
    LimitsFor(st.config.minBitrateBps, st.config.maxBitrateBps, st.settings, st.bitrateRange, st.frameLengths, st.overhead)
  }

  function Clamped(target: int, r: Rates): (t: int)
    ensures target < r.min ==> t == r.min
    ensures r.min <= target <= r.max ==> t == target
    ensures r.min <= r.max < target ==> t == r.max
  {
    Max(r.min, Min(target, r.max))
  }

  function BitrateUpdated(st: Stream, target: int): Stream {
    var limits := Constraints(st);
    st.(channel := st.channel.(target := Some(if limits.Some? then Clamped(target, limits.value) else target)))
  }

  function PriorityBitrate(st: Stream): int
    requires st.settings.legacyOverhead || st.frameLengths.Some?
  {
    if !st.settings.enablePriority then 0
    else if st.settings.priorityBitrateRaw.Some? then st.settings.priorityBitrateRaw.value
    else st.settings.priorityBitrate +
         if st.settings.legacyOverhead then LEGACY_MAX_OVERHEAD else Rate(st.overhead, st.frameLengths.value.longest)
  }

  function AllocationFor(st: Stream): Allocation
    requires Constraints(st).Some?
  {
    var limits := Constraints(st).value;
    Allocation(limits.min, limits.max, PriorityBitrate(st),
               if st.settings.bitratePriority.Some? then st.settings.bitratePriority.value
               else st.config.bitratePriority)
  }

  /** Adds or updates the stream's allocation; the allocator calls back at once. */
  function ConfigureObserver(sc: Scene, granted: int): Option<Scene> {
    if Constraints(sc.stream).None? then None
    else Some(sc.(allocator := sc.allocator[sc.stream.id := AllocationFor(sc.stream)],
                  stream := BitrateUpdated(sc.stream, granted).(
                              registered := true,
                              registeredWith := Ranges(sc.stream.frameLengths, sc.stream.bitrateRange))))
  }

  function RemoveObserver(sc: Scene): Scene {
    sc.(allocator := sc.allocator - {sc.stream.id}, stream := sc.stream.(registered := false))
  }

  function UpdateOverhead(sc: Scene, rtpOverhead: nat, granted: int): Option<Scene> {
    var total := sc.stream.transportOverhead + rtpOverhead;
    if sc.stream.overhead == total then Some(sc)
    else
      var counted := sc.(stream := sc.stream.(overhead := total));
      var observed := if sc.stream.registered then ConfigureObserver(counted, granted) else Some(counted);
      if observed.None? then None
      else
        var st := observed.value.stream;
        Some(observed.value.(stream := st.(channel := st.channel.(packetOverhead := total))))
  }

  // ---------------------------------------------------------------- configuration

  function TransportSeqNumId(c: Config): int { c.ids.transportSequenceNumber }

  /** The limits are set and the stream is to be managed by the allocator. */
  predicate Limited(c: Config) { c.minBitrateBps != -1 && c.maxBitrateBps != -1 }

  predicate Allocatable(c: Config) { !c.hasDscp && Limited(c) && TransportSeqNumId(c) != 0 }

  predicate AllocatableAtStart(c: Config, withoutFeedback: bool) {
    !c.hasDscp && Limited(c) && (withoutFeedback || TransportSeqNumId(c) != 0)
  }

  /** Nothing that the observer is compared on has changed. */
  predicate ObserverUnchanged(c: Config, d: Config) {
    && c.minBitrateBps == d.minBitrateBps && c.maxBitrateBps == d.maxBitrateBps
    && c.bitratePriority == d.bitratePriority
    && TransportSeqNumId(c) == TransportSeqNumId(d)
    && c.networkAdaptor == d.networkAdaptor
  }

  /** The current configuration with the observer's part of the new one, which
      must be in place before the allocator calls back. */
  function WithLimits(st: Stream, c: Config): Stream {
    st.(config := st.config.(minBitrateBps := c.minBitrateBps, maxBitrateBps := c.maxBitrateBps,
                             bitratePriority := c.bitratePriority))
  }

  function SetPartOfAllocation(sc: Scene, part: bool): Scene {
    sc.(stream := sc.stream.(rtp := sc.stream.rtp.(partOfAllocation := part)))
  }

  /** Registers, or updates the registration, under the new limits. */
  function Reregister(sc: Scene, c: Config, granted: int): Option<Scene> {
    var observed := ConfigureObserver(sc.(stream := WithLimits(sc.stream, c)), granted);
    if observed.None? then None else Some(SetPartOfAllocation(observed.value, true))
  }

  function ReconfigureObserver(sc: Scene, c: Config, granted: int): Option<Scene> {
    if ObserverUnchanged(sc.stream.config, c) then Some(sc)
    else if Allocatable(c) then Reregister(sc, c, granted)
    else Some(SetPartOfAllocation(RemoveObserver(sc), false))
  }

  /** The channel keeps at most 255 characters. */
  function CnameLimit(cName: string): (r: string)
    ensures r <= cName && |r| == Min(|cName|, 255)
  {
    if |cName| <= 255 then cName else cName[..255]
  }

  /** At most 15 contributing sources are kept. */
  function CsrcLimit(csrcs: seq<nat>): (r: seq<nat>)
    ensures r <= csrcs && |r| == Min(|csrcs|, 15)
  {
    if |csrcs| <= 15 then csrcs else csrcs[..15]
  }

  /** The channel ignores the absence of a frame transformer: one that it has
      been given stays until it is given another. */
  function ConfigureChannel(st: Stream, c: Config, first: bool): Stream {
    var was := st.config;
    st.(channel := st.channel.(
          cName := if first || was.cName != c.cName then CnameLimit(c.cName) else st.channel.cName,
          frameEncryptor := if first || c.frameEncryptor != was.frameEncryptor then c.frameEncryptor
                            else st.channel.frameEncryptor,
          frameTransformer := if (first || c.frameTransformer != was.frameTransformer) && c.frameTransformer != 0
                              then c.frameTransformer else st.channel.frameTransformer,
          csrcs := if first || c.csrcs != was.csrcs then CsrcLimit(c.csrcs) else st.channel.csrcs),
        rtp := st.rtp.(
          extmapAllowMixed := if first || c.extmapAllowMixed != was.extmapAllowMixed then c.extmapAllowMixed
                              else st.rtp.extmapAllowMixed))
  }

  /** A change of configuration, as far as the extension registry is concerned. */
  datatype Change = Change(from: Config, to: Config, first: bool, withoutFeedback: bool)

  predicate MidWanted(c: Config) { c.ids.mid != 0 && c.mid != "" }

  predicate MidChanged(ch: Change) {
    ch.first || ch.to.ids.mid != ch.from.ids.mid || ch.to.mid != ch.from.mid
  }

  /** The change makes the stream touch the registration of this extension. */
  predicate Touched(ch: Change, t: ExtensionType) {
    var changed := ch.first || IdOf(ch.from.ids, t) != IdOf(ch.to.ids, t);
    match t
    case TransportSequenceNumber => changed && !ch.withoutFeedback && TransportSeqNumId(ch.to) != 0
    case Mid => MidChanged(ch) && MidWanted(ch.to)
    case Rid => false
    case RepairedRid => false
    case _ => changed
  }

  /** The audio level is set without removing an earlier id first, or removed;
      the two absolute times are removed and then set; the others are only set. */
  function Update(ids: Registry, ch: Change, t: ExtensionType): Option<Registry> {
    var id := IdOf(ch.to.ids, t);
    if !Touched(ch, t) then Some(ids)
    else match t
      case AudioLevel => if id != 0 then Register(ids, t, id) else Some(Deregister(ids, t))
      case AbsSendTime => if id != 0 then Register(Deregister(ids, t), t, id) else Some(Deregister(ids, t))
      case AbsCaptureTime => if id != 0 then Register(Deregister(ids, t), t, id) else Some(Deregister(ids, t))
      case _ => Register(ids, t, id)
  }

  /** The order in which the extensions are brought up to date. */
  function Turn(k: nat): ExtensionType {
    if k == 0 then AudioLevel
    else if k == 1 then AbsSendTime
    else if k == 2 then TransportSequenceNumber
    else if k == 3 then Mid
    else AbsCaptureTime
  }

  function UpdateFirst(k: nat, ids: Registry, ch: Change): Option<Registry> {
    if k == 0 then Some(ids)
    else
      var before := UpdateFirst(k - 1, ids, ch);
      if before.None? then None else Update(before.value, ch, Turn(k - 1))
  }

  function ConfigureExtensions(st: Stream, c: Config, first: bool): Option<Stream> {
    var ch := Change(st.config, c, first, st.settings.withoutFeedback);
    var ids := UpdateFirst(5, st.rtp.ids, ch);
    if ids.None? then None
    else Some(st.(channel := st.channel.(includeAudioLevel :=
                      if Touched(ch, AudioLevel) then c.ids.audioLevel != 0
                      else st.channel.includeAudioLevel),
                  rtp := st.rtp.(ids := ids.value, mid := if Touched(ch, Mid) then c.mid else st.rtp.mid)))
  }

  /** A new encoder is needed: there was none, or its format or payload types change. */
  predicate NeedsEncoder(c: Config, d: Config) {
    && d.codec.Some?
    && !(d.codec == c.codec && d.networkAdaptor == c.networkAdaptor)
    && (c.codec.None? || d.codec.value.format != c.codec.value.format
        || d.codec.value.payloadType != c.codec.value.payloadType
        || d.codec.value.redPayloadType != c.codec.value.redPayloadType)
  }

  function StoreEncoder(sc: Scene, p: AudioStates.Properties, reply: AudioStates.Reply): Scene {
    sc.(stream := sc.stream.(encoder := p),
        audio := if sc.stream.sending then AudioStates.Step(sc.audio, AudioStates.AddSending(sc.stream.id, p, reply))
                 else sc.audio)
  }

  function ConfigureCodec(sc: Scene, c: Config, created: Option<AudioStates.Properties>, reply: AudioStates.Reply): Scene {
    if NeedsEncoder(sc.stream.config, c) && created.Some? then
      var stored := StoreEncoder(sc, created.value, reply);
      stored.(stream := stored.stream.(channel := stored.stream.channel.(hasEncoder := true)))
    else sc
  }

  function ReadRanges(st: Stream, env: Env): Stream {
    if st.channel.hasEncoder then st.(frameLengths := env.frameLengths, bitrateRange := env.bitrateRange) else st
  }

  function FinishConfigure(sc: Scene, c: Config, env: Env): Option<Scene> {
    var ranged := sc.(stream := ReadRanges(sc.stream, env));
    var observed := if ranged.stream.sending then ReconfigureObserver(ranged, c, env.regranted) else Some(ranged);
    if observed.None? then None else
    var st := observed.value.stream;
    Some(observed.value.(stream := st.(config := c, history := st.history + [c],
                                       answers := st.answers + [env.created])))
  }

  function Configure(sc: Scene, c: Config, first: bool, env: Env): Option<Scene> {
    var extended := ConfigureExtensions(ConfigureChannel(sc.stream, c, first), c, first);
    if extended.None? then None else
    var coded := ConfigureCodec(sc.(stream := extended.value), c, env.created, env.reply);
    var counted := UpdateOverhead(coded, env.rtpOverhead, env.granted);
    if counted.None? then None else FinishConfigure(counted.value, c, env)
  }

  // -------------------------------------------------------------- start and stop

  function RegisterAtStart(sc: Scene, granted: int): Option<Scene> {
    var wanted := AllocatableAtStart(sc.stream.config, sc.stream.settings.withoutFeedback);
    var flagged := SetPartOfAllocation(sc, wanted);
    if wanted then ConfigureObserver(flagged, granted) else Some(flagged)
  }

  function BeginSending(sc: Scene, reply: AudioStates.Reply): Scene {
    var st := sc.stream;
    sc.(stream := st.(channel := st.channel.(started := true), sending := true, startedAt := |st.history|),
        audio := AudioStates.Step(sc.audio, AudioStates.AddSending(st.id, st.encoder, reply)))
  }

  function Start(sc: Scene, env: Env): Option<Scene> {
    if sc.stream.sending then Some(sc)
    else
      var enrolled := RegisterAtStart(sc, env.granted);
      if enrolled.None? then None else Some(BeginSending(enrolled.value, env.reply))
  }

  function Stop(sc: Scene): Scene {
    if !sc.stream.sending then sc
    else
      var st := RemoveObserver(sc).stream;
      RemoveObserver(sc).(
        stream := st.(channel := st.channel.(started := false), sending := false),
        audio := AudioStates.Step(sc.audio, AudioStates.RemoveSending(st.id)))
  }

  function SetTransportOverhead(sc: Scene, bytes: nat, env: Env): Option<Scene> {
    UpdateOverhead(sc.(stream := sc.stream.(transportOverhead := bytes)), env.rtpOverhead, env.granted)
  }
}
