/** The header extensions of a sent stream: which ids a configuration asks for,
    and the registry that maps extension types to ids in the RTP module. */
module HeaderExtensionMap {
  import opened Common
  import opened RtpExtensions

  datatype ExtensionType =
    AudioLevel | AbsSendTime | AbsCaptureTime | TransportSequenceNumber | Mid | Rid | RepairedRid

  const AUDIO_LEVEL_URI := "urn:ietf:params:rtp-hdrext:ssrc-audio-level"
  const ABS_SEND_TIME_URI := "http://www.webrtc.org/experiments/rtp-hdrext/abs-send-time"
  const ABS_CAPTURE_TIME_URI := "http://www.webrtc.org/experiments/rtp-hdrext/abs-capture-time"
  const TRANSPORT_SEQUENCE_NUMBER_URI := "http://www.ietf.org/id/draft-holmer-rmcat-transport-wide-cc-extensions-01"
  const MID_URI := "urn:ietf:params:rtp-hdrext:sdes:mid"
  const RID_URI := "urn:ietf:params:rtp-hdrext:sdes:rtp-stream-id"
  const REPAIRED_RID_URI := "urn:ietf:params:rtp-hdrext:sdes:repaired-rtp-stream-id"

  function UriOf(t: ExtensionType): string {
    match t
    case AudioLevel => AUDIO_LEVEL_URI
    case AbsSendTime => ABS_SEND_TIME_URI
    case AbsCaptureTime => ABS_CAPTURE_TIME_URI
    case TransportSequenceNumber => TRANSPORT_SEQUENCE_NUMBER_URI
    case Mid => MID_URI
    case Rid => RID_URI
    case RepairedRid => REPAIRED_RID_URI
  }

  function UriLength(t: ExtensionType): nat {
    match t
    case AudioLevel => 43
    case AbsSendTime => 58
    case AbsCaptureTime => 61
    case TransportSequenceNumber => 73
    case Mid => 35
    case Rid => 45
    case RepairedRid => 54
  }

  lemma UriHasLength(t: ExtensionType)
    ensures |UriOf(t)| == UriLength(t)
  {
  }

  lemma UrisDiffer(t: ExtensionType, u: ExtensionType)
    requires UriOf(t) == UriOf(u)
    ensures t == u
  {
    UriHasLength(t);
    UriHasLength(u);
  }

  /** The id of the last entry with this URI, or 0: not configured. */
  function LastId(exts: seq<RtpExtension>, uri: string): int {
    if exts == [] then 0
    else if exts[|exts| - 1].uri == uri then exts[|exts| - 1].id
    else LastId(exts[..|exts| - 1], uri)
  }

  function IdFor(exts: seq<RtpExtension>, t: ExtensionType): int { LastId(exts, UriOf(t)) }

  datatype ExtensionIds = ExtensionIds(
    audioLevel: int, absSendTime: int, absCaptureTime: int, transportSequenceNumber: int,
    mid: int, rid: int, repairedRid: int)

  const NO_IDS := ExtensionIds(0, 0, 0, 0, 0, 0, 0)

  function IdOf(ids: ExtensionIds, t: ExtensionType): int {
    match t
    case AudioLevel => ids.audioLevel
    case AbsSendTime => ids.absSendTime
    case AbsCaptureTime => ids.absCaptureTime
    case TransportSequenceNumber => ids.transportSequenceNumber
    case Mid => ids.mid
    case Rid => ids.rid
    case RepairedRid => ids.repairedRid
  }

  function IdsFor(exts: seq<RtpExtension>): ExtensionIds {
    ExtensionIds(IdFor(exts, AudioLevel), IdFor(exts, AbsSendTime), IdFor(exts, AbsCaptureTime),
                 IdFor(exts, TransportSequenceNumber), IdFor(exts, Mid), IdFor(exts, Rid), IdFor(exts, RepairedRid))
  }

  /** One round of the search: the entry overwrites the id of its extension. */
  function Noted(ids: ExtensionIds, e: RtpExtension): ExtensionIds {
    if e.uri == UriOf(AudioLevel) then ids.(audioLevel := e.id)
    else if e.uri == UriOf(AbsSendTime) then ids.(absSendTime := e.id)
    else if e.uri == UriOf(TransportSequenceNumber) then ids.(transportSequenceNumber := e.id)
    else if e.uri == UriOf(Mid) then ids.(mid := e.id)
    else if e.uri == UriOf(Rid) then ids.(rid := e.id)
    else if e.uri == UriOf(RepairedRid) then ids.(repairedRid := e.id)
    else if e.uri == UriOf(AbsCaptureTime) then ids.(absCaptureTime := e.id)
    else ids
  }

  lemma NotedIsNext(exts: seq<RtpExtension>, i: nat)
    requires i < |exts|
    ensures IdsFor(exts[..i + 1]) == Noted(IdsFor(exts[..i]), exts[i])
  {
    assert exts[..i + 1][..i] == exts[..i];
    forall t: ExtensionType, u: ExtensionType | UriOf(t) == UriOf(u) ensures t == u {
      UrisDiffer(t, u);
    }
  }

  /** `id` is that of the last entry with this URI, or 0 if there is none. */
  ghost predicate IsLastId(exts: seq<RtpExtension>, uri: string, id: int) {
    if exists i :: 0 <= i < |exts| && exts[i].uri == uri
    then exists i :: 0 <= i < |exts| && exts[i].uri == uri && exts[i].id == id &&
                     forall j | i < j < |exts| :: exts[j].uri != uri
    else id == 0
  }

  lemma {:induction false} LastIdIs(exts: seq<RtpExtension>, uri: string)
    ensures IsLastId(exts, uri, LastId(exts, uri))
  {
    if exts != [] && exts[|exts| - 1].uri != uri {
      var rest := exts[..|exts| - 1];
      LastIdIs(rest, uri);
      assert forall j | 0 <= j < |rest| :: rest[j] == exts[j];
      if exists i :: 0 <= i < |exts| && exts[i].uri == uri {
        var i :| 0 <= i < |exts| && exts[i].uri == uri;
        assert rest[i].uri == uri;
        var k :| 0 <= k < |rest| && rest[k].uri == uri && rest[k].id == LastId(rest, uri) &&
                 forall j | k < j < |rest| :: rest[j].uri != uri;
        assert exts[k].id == LastId(exts, uri);
      }
    }
  }

  /** Every field is the id of the last entry with the field's own URI. */
  ghost predicate AreLastIds(exts: seq<RtpExtension>, ids: ExtensionIds) {
    && IsLastId(exts, AUDIO_LEVEL_URI, ids.audioLevel)
    && IsLastId(exts, ABS_SEND_TIME_URI, ids.absSendTime)
    && IsLastId(exts, ABS_CAPTURE_TIME_URI, ids.absCaptureTime)
    && IsLastId(exts, TRANSPORT_SEQUENCE_NUMBER_URI, ids.transportSequenceNumber)
    && IsLastId(exts, MID_URI, ids.mid)
    && IsLastId(exts, RID_URI, ids.rid)
    && IsLastId(exts, REPAIRED_RID_URI, ids.repairedRid)
  }

  lemma IdsForAre(exts: seq<RtpExtension>)
    ensures AreLastIds(exts, IdsFor(exts))
  {
    LastIdIs(exts, AUDIO_LEVEL_URI);
    LastIdIs(exts, ABS_SEND_TIME_URI);
    LastIdIs(exts, ABS_CAPTURE_TIME_URI);
    LastIdIs(exts, TRANSPORT_SEQUENCE_NUMBER_URI);
    LastIdIs(exts, MID_URI);
    LastIdIs(exts, RID_URI);
    LastIdIs(exts, REPAIRED_RID_URI);
  }

  method FindExtensionIds(exts: seq<RtpExtension>) returns (ids: ExtensionIds)
    ensures AreLastIds(exts, ids) && ids == IdsFor(exts)
  {
    IdsForAre(exts);
    ids := NO_IDS;
    for i := 0 to |exts|
      invariant ids == IdsFor(exts[..i])
    {
      NotedIsNext(exts, i);
      ids := Noted(ids, exts[i]);
    }
    assert exts[..|exts|] == exts;
  }

  // -------------------------------------------------------------------- registry

  /** The registered types with their ids. */
  type Registry = map<ExtensionType, int>

  predicate InUse(ids: Registry, id: int) { exists t :: t in ids && ids[t] == id }

  /** None when the registration is refused: an id out of range, an id that
      another type has, or a type that already has another id. */
  function Register(ids: Registry, t: ExtensionType, id: int): Option<Registry> {
    if id < 1 || 255 < id then None
    else if t in ids && ids[t] == id then Some(ids)
    else if InUse(ids, id) || t in ids then None
    else Some(ids[t := id])
  }

  function Deregister(ids: Registry, t: ExtensionType): Registry { ids - {t} }

  /** No two types share an id, and every id is a valid one. */
  ghost predicate Sound(ids: Registry) {
    && (forall t, u | t in ids && u in ids :: ids[t] == ids[u] ==> t == u)
    && (forall t | t in ids :: 1 <= ids[t] <= 255)
  }
}
