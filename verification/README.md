# Verified models of WebRTC audio sessions and API value types

This project models, in Dafny, the parts of the WebRTC source tree that carry state, loops or
arithmetic, and proves what they promise for every input and over every run. `dafny verify
dfyconfig.toml` checks all of it.

How a component is modelled: code that updates objects in place is a class whose methods are proved
against specification functions on values; what the source promises is then proved of those
functions, for all arguments and for all finite sequences of operations. Foreign code (the audio
device, the mixer, encoders and their factory, the RTP module's own overhead, the allocator's
decisions) enters as parameters that may take any value. A failed `RTC_CHECK`, and the use of an
absent value that an `RTC_DCHECK` forbids, ends a run: such an operation yields `None`, or
`completed == false` in a method. Pointers are named by natural numbers, so that `std::map` keyed by
pointer is walked in ascending order.

## Files

| file | what it models |
|---|---|
| `SendStreamSpec.dfy`, `SendStreamRegistry.dfy`, `SendStreamInvariants.dfy`, `SendStreamFresh.dfy`, `SendStreamBitrates.dfy`, `SendStreamEncoder.dfy`, `SendStreamCompletion.dfy`, `AudioSendStream.dfy` | the audio send stream: configuration, header extension registry, bitrate limits and registration, start and stop; the stream classes |
| `Session.dfy`, `SessionRequests.dfy`, `SessionExamples.dfy` | any number of send and receive streams on one audio state and one allocator; the session against what was asked of it; concrete runs |
| `AudioState.dfy`, `AudioTransport.dfy` | the shared audio state, the device, the null poller, and the capture path |
| `HeaderExtensionMap.dfy`, `RtpExtensions.dfy` | header extension ids and registry; lookup and de-duplication |
| `RefCounting.dfy`, `RefCountedProgram.dfy` | `scoped_refptr` and the reference ledger; a program's handles as objects |
| `LegacyStats.dfy`, `LegacyStatsOwnership.dfy` | report ids, the stats collection, ownership of reports |
| `FieldTrials.dfy` | field trial strings and collections |
| `AudioLevel.dfy`, `IcePriority.dfy` | the level meter; candidate priorities |

## What turned out not to hold, and exactly when it does

- A reconfigured stream does not always equal a freshly constructed one: the channel ignores a
  missing frame transformer, and the transport sequence number and MID registrations are never
  removed. `SendStreamFresh.Agree` gives the exact condition, `OldDemandsStayHere` a run.
- A second frame transformer replaces the first in release builds, which is what is modelled; debug
  builds stop at an `RTC_DCHECK`. A construction with a transformer installs it twice and so fails
  the check too. `TransformerOnlyOnce` says exactly when one configuration meets it,
  `AlwaysCheckedExactly` when all of a stream's do; `SecondTransformer` is a run that does not.
- A reconfiguration may end the program: `RegisterRtpHeaderExtension` insists that the registry
  accepts the id, and a registration insists on bitrate limits. `ConfigureCompletes` says exactly
  which configurations go through; `LevelIdCannotMove` and `TimesCannotExchange` are two families
  that never do, `LevelMoveEnds` and `ExchangeEnds` runs.
- A sending stream is not always registered as its configuration asks: a change of the DSCP mark
  alone is not noticed, and allocation without feedback registers streams that a later
  reconfiguration would not. `SessionRegistration` says what a stream's registration is in every run
  and exactly when that is what is asked for; `MarkedStaysRegistered` and `StartedWithoutFeedback`
  are runs.
- An encoder that could not be created is not tried again by the next configuration, unless that one
  changes its format or payload types (`FailedEncoderIsNotRetried`, and the run `EncoderStays`).
  `SessionEncoder` says which encoder a stream has in every run.
- The allocator's limits are not always the stream's: the registration is not renewed when only the
  encoder's ranges change. `SessionLimits` gives the exact condition, `LimitsGoStale` a run.
- With the preferring filter the lookup falls back to the last unencrypted entry while
  de-duplication keeps the first. `LookupAgrees` gives the exact condition.
- De-duplication is independent of the input's order exactly for unambiguous lists
  (`CanonicalOfPermutation`, `AmbiguousOrderMatters`).
- `Equals` of report ids is not always equality, nor symmetric; `EqualsMeansEqual` says where it is.
  Collections act as maps exactly for ids that are comparable in this sense (`MapsExactly`);
  `OtherClassIsFound` is a run with ids that are not.
- Reports in a detached container that is dropped are never deleted (`AllDeletedExactly`,
  `DroppedContainerLeaks`).
- Assigning a raw pointer or a copy runs the old object's destructor while the handle still names
  it (`AssignDangles`, and the run `SoleHandleDangles`); move assignment does not (`MoveDoesNotDangle`).

## Model

| member | source | states |
|---|---|---|
| Session.SessionLinks | source_code/audio/audio_send_stream.cc:357-389 | After every completed run over any number of streams, the audio state's sending map is exactly the sending streams with their current encoder rate and channels, the transport holds each once with the largest rate (at least 8000) and channel count (at least 1), the allocator holds exactly the registered streams, and those are sending |
| Session.SessionRegistration | source_code/audio/audio_send_stream.cc:767-846 | In every completed run a sending stream is with the allocator, and flagged as part of the allocation, exactly as the deciding configuration asked: the last since the start that changed something compared, or else the one it was started with. That is what the current configuration asks for if and only if the DSCP mark still is the deciding one's where it matters, and the start did not register without feedback; so always, with feedback required and a constant mark |
| Session.SessionLimits | source_code/audio/audio_send_stream.cc:801-898 | In every completed run what the allocator holds for a stream - limits, priority bitrate and bitrate priority - follows from its current configuration and overhead and the encoder's ranges at the last registration; its limits are the stream's own if and only if the ranges read since give the same |
| Session.SessionEncoder | source_code/audio/audio_send_stream.cc:583-680 | In every completed run a stream's encoder is the one created for the last configuration that needed one and got it, or none if there was no such configuration |
| Session.SessionAgreesWithFresh | source_code/audio/audio_send_stream.cc:229-355 | In every completed run each stream agrees with one constructed from its last configuration - on frame transformer, transport sequence number and MID if and only if that configuration asks for them or none before did - and that construction completes |
| Session.SessionCapture | source_code/audio/audio_transport_impl.cc:161-210 | A frame recorded after any completed run reaches each sending stream once and no other, at a rate that loses nothing its encoder could use unless it is the top native rate, and with all the recorded channels its encoder could use |
| Session.SessionQuiet | source_code/audio/audio_state.cc:39-44 | In every completed run, once all streams are gone the audio state has no stream left, the device neither plays nor records, the poller is stopped, and the allocator has no observer |
| Session.SessionChecks | source_code/audio/audio_state.cc:74-158 | In every run an operation makes at most one call to the audio state, and none of its checks fails: a receiving stream is added when absent, whatever is removed is there; and no send stream is sending when destroyed |
| SessionRequests.SendersAsAsked | source_code/audio/audio_send_stream.cc:146-389 | In every completed run there are exactly the send streams created and not destroyed, each with the settings and all configurations it was given, sending if and only if last started, with the transport overhead last set and as overhead the sum of that and the RTP module's when last asked |
| SessionRequests.ReceiversAsAsked | source_code/audio/audio_receive_stream.cc:187-207 | There are exactly the receive streams created and not destroyed, playing if and only if last started |
| SessionRequests.SettingsAsAsked | source_code/audio/audio_state.cc:54-126 | Playout and recording are enabled if and only if not last disabled |
| SessionRequests.SessionPlayout | source_code/audio/audio_state.cc:54-210 | The null poller runs if and only if some receive stream was last started and playout last disabled; the device plays, and records, only as last asked and for a stream last started |
| SessionRequests.SessionForwards | source_code/audio/audio_send_stream.cc:500-514 | In every completed run a rate from the allocator is forwarded unchanged without limits, and else as the nearest rate within them |
| Session.RunValid | source_code/audio/audio_state.cc:128-177 | The session invariant, from which the theorems above follow, holds after every completed run |
| Session.StepKeeps | source_code/audio/audio_send_stream.cc:195-200 | Every operation on any stream keeps the session invariant |
| Session.ConfigureLinked | source_code/audio/audio_send_stream.cc:328-352 | Configuring one stream keeps it in agreement with audio state and allocator, and changes nothing for any other stream |
| Session.StartLinked | source_code/audio/audio_send_stream.cc:357-377 | Starting does the same |
| Session.StopLinked | source_code/audio/audio_send_stream.cc:379-389 | Stopping does the same, and the stream is no longer sending |
| Session.OverheadLinked | source_code/audio/audio_send_stream.cc:527-543 | A change of the per-packet overhead does the same |
| Session.DestroyKeeps | source_code/call/call.cc:852-870 | Stopping and deleting a send stream keeps the session invariant |
| Session.DestroyReceiverKeeps | source_code/audio/audio_receive_stream.cc:141-146 | So does destroying a receive stream |
| SendStreamFresh.IncrementalAgreesWithFresh | source_code/audio/audio_send_stream.cc:229-326 | A stream wired to its configuration agrees with a fresh one on CNAME, encryptor, extmap flag, CSRCs, audio level and both absolute times; frame transformer, transport sequence number and MID agree if and only if the current configuration asks for them or none before did |
| SendStreamFresh.TransformerOnlyOnce | source_code/audio/channel_send.cc:935-957 | The channel is free for the transformer it is given, as it insists in debug builds, at a construction if and only if that brings none, since the channel's constructor has installed it; at a reconfiguration if and only if it brings none or the current one, or no configuration before had one |
| SendStreamFresh.AlwaysCheckedExactly | source_code/audio/channel_send.cc:953-957 | A stream meets this check at every configuration if and only if it is constructed without a transformer and at most one is ever brought |
| SendStreamFresh.CheckIs | source_code/audio/channel_send.cc:544-545 | The check in terms of the stream's channel is the one in terms of the configurations so far |
| SendStreamFresh.ConstructionCompletes | source_code/audio/audio_send_stream.cc:180 | A construction from a configuration that some stream came to have is never stopped by a failed check |
| SendStreamFresh.LevelIdCannotMove | source_code/audio/channel_send.cc:746-754 | Changing a registered audio level id to another id always fails the check |
| SendStreamFresh.TimesCannotExchange | source_code/audio/audio_send_stream.cc:280-326 | Exchanging the ids of the two absolute times in one step always fails the check |
| SendStreamFresh.FailedEncoderIsNotRetried | source_code/audio/audio_send_stream.cc:654-680 | The configuration right after a failed encoder creation, whatever it is, gets a new encoder if and only if it changes format, payload type or RED payload type and the creation succeeds; else the old encoder stays |
| SendStreamFresh.EncoderOnlyFromSetup | source_code/audio/audio_send_stream.cc:583-652 | The encoder properties change exactly when a new encoder is needed and created |
| SendStreamEncoder.ConfigureSupplied | source_code/audio/audio_send_stream.cc:654-680 | Every configuration keeps the encoder that of the last one that needed and got one, compared with the configuration before it |
| SendStreamEncoder.SupplyingAfter | source_code/audio/audio_send_stream.cc:654-680 | One more configuration supplies the encoder if it needs and gets one, and else leaves it to the earlier |
| SendStreamEncoder.RecordsAfter | source_code/audio/audio_send_stream.cc:328-352 | A configuration reads the encoder's ranges if there is an encoder by then, and leaves them alone otherwise |
| SendStreamInvariants.ConfigureWires | source_code/audio/audio_send_stream.cc:247-352 | Every completed configuration leaves the channel with the first 255 characters of the CNAME, the first 15 CSRCs, the encryptor and the audio level flag, and the RTP module with the extmap flag and the ids of level and both times; the two sticky registrations remember the first that asked, MID text and frame transformer the last |
| SendStreamInvariants.ConfigureWiring | source_code/audio/audio_send_stream.cc:328-354 | Codec, overhead, ranges and observer do not touch what the configuration was copied into |
| SendStreamInvariants.ExtensionsRemember | source_code/audio/audio_send_stream.cc:288-317 | Transport sequence number and MID stay registered from the first configuration asking for them, all of which agree on the id, and the MID text is the last one asked for |
| SendStreamRegistry.RegistryExact | source_code/modules/rtp_rtcp/source/rtp_header_extension_map.cc:127-168 | A change of configuration completes if and only if every new id is valid, replaces nothing it may not replace, and is free when its turn comes; then each touched extension has its new id and all others keep theirs |
| SendStreamRegistry.RegisterExact | source_code/modules/rtp_rtcp/source/rtp_header_extension_map.cc:127-168 | A registration succeeds if and only if the id is in range, the type has no other id, and no other type has it; it keeps ids unique and changes only that type |
| SendStreamRegistry.UpdateExact | source_code/audio/audio_send_stream.cc:274-326 | The same for the update of one extension, which may deregister first |
| SendStreamRegistry.IdHandedOn | source_code/audio/audio_send_stream.cc:271-326 | When one extension gives up its id and another takes it in one change, this completes if and only if the audio level gives it up, or the absolute send time to another than the level |
| SendStreamRegistry.IdMoves | source_code/audio/audio_send_stream.cc:271-326 | An extension can change its id in one step if and only if it is one of the two absolute times |
| SendStreamBitrates.LimitsOrdered | source_code/audio/audio_send_stream.cc:848-898 | From non-negative rates and an ordered frame length range, returned limits satisfy 0 <= min <= max after both rounded overhead divisions |
| SendStreamBitrates.LimitsMonotone | source_code/audio/audio_send_stream.cc:880-896 | Both limits are monotone in the per-packet overhead, whose growth never removes them; the legacy calculation ignores it |
| SendStreamBitrates.LimitsExactly | source_code/audio/audio_send_stream.cc:848-898 | There are limits if and only if both configured ones are set, the chosen rates are in order and the overhead can be calculated; each is the encoder's rate, else the field trial's, else the configured one, plus 6666 in the legacy calculation or else the overhead q over the longest frame length d for the minimum and the shortest for the maximum, with d*q <= 8000000*bytes < d*(q+1) |
| SendStreamBitrates.AreLimitsUnique | source_code/audio/audio_send_stream.cc:880-896 | There is only one such pair |
| SendStreamBitrates.AllocationExactly | source_code/audio/audio_send_stream.cc:801-841 | A registration has these limits, a priority bitrate that is 0 unless enabled, the raw field trial value, or the field trial's plus overhead, and the field trial's or else the configured bitrate priority |
| SendStreamBitrates.ForwardedExactly | source_code/audio/audio_send_stream.cc:500-514 | The forwarded rate is the allocated one without limits, and else the nearest within them; nothing else changes |
| SendStreamBitrates.ConfiguredRateForwarded | source_code/audio/audio_send_stream.cc:500-514 | Without override a rate within the configured range and not below the lower limit is forwarded unchanged |
| SendStreamBitrates.RegistrationForwards | source_code/audio/audio_send_stream.cc:357-377 | A start that registers forwards the rate granted then, within the limits; another leaves the channel's rate |
| SendStreamBitrates.RenewalForwards | source_code/audio/audio_send_stream.cc:527-543 | A changed overhead of a registered stream forwards the rate granted then under the new overhead |
| SendStreamBitrates.ForwardedWithinLimits | source_code/audio/audio_send_stream.cc:500-514 | The forwarded rate is within the limits, and unchanged if the allocated one was |
| SendStreamBitrates.RegistrationUsesNewLimits | source_code/audio/audio_send_stream.cc:782-798 | The call back during a re-registration is clamped to the limits of the new configuration, which are also the allocator's |
| SendStreamBitrates.ReconfigureRegularity | source_code/audio/audio_send_stream.cc:767-799 | A reconfiguration of any sending stream leaves its registration in line with the configuration if and only if something compared changed, or the registration it had is what is now asked for; from a registration in line, exactly unless the DSCP mark alone changes and decides |
| SendStreamBitrates.StartRegularity | source_code/audio/audio_send_stream.cc:363-372 | Starting brings it in line if and only if allocation without feedback does not register a stream without transport sequence id |
| SendStreamBitrates.DscpAloneKeepsRegistration | source_code/audio/audio_send_stream.cc:773-780 | Setting only the DSCP mark leaves a registered stream registered |
| SendStreamBitrates.ConfigureDecided | source_code/audio/audio_send_stream.cc:348-352 | A configuration keeps the registration what the deciding configuration asked for |
| SendStreamBitrates.StartDecided | source_code/audio/audio_send_stream.cc:357-377 | So does a start |
| SendStreamBitrates.RegularExactly | source_code/audio/audio_send_stream.cc:767-799 | What was decided is what the current configuration asks for if and only if the deciding one has its DSCP mark where the mark matters, and was not a start that registered without feedback |
| SendStreamBitrates.SteadyStillAsked | source_code/audio/audio_send_stream.cc:767-780 | That is always so with feedback required and a DSCP mark that never changes |
| SendStreamBitrates.ConfigureFollows | source_code/audio/audio_send_stream.cc:328-352 | Every configuration keeps the allocator's limits those from the ranges known at the last registration |
| SendStreamBitrates.OverheadFollows | source_code/audio/audio_send_stream.cc:527-543 | So does a change of the per-packet overhead, which renews the registration |
| SendStreamBitrates.StartFollows | source_code/audio/audio_send_stream.cc:357-377 | So does a start |
| SendStreamCompletion.ConfigureCompletes | source_code/audio/audio_send_stream.cc:229-355 | A configuration completes if and only if every new extension id fits when its turn comes, the old configuration still has limits where a changed overhead renews a registration, and the new one has limits where it is registered |
| SendStreamCompletion.StartCompletes | source_code/audio/audio_send_stream.cc:357-377 | Starting completes if and only if the stream sends already, is not to be allocated, or has limits |
| SendStreamCompletion.OverheadCompletes | source_code/audio/audio_send_stream.cc:527-543 | An overhead update completes if and only if the stream is not registered, the overhead is unchanged, or there are limits under the new one |
| SessionExamples.OldDemandsStayHere | source_code/audio/audio_send_stream.cc:256-317 | A run after which transformer, transport sequence number and MID are still there although the configuration asks for none, and a fresh stream without them |
| SessionExamples.SecondTransformer | source_code/audio/channel_send.cc:935-957 | A run whose first transformer meets the check, whose second does not, and after which the second is in place |
| SessionExamples.LevelMoveEnds | source_code/audio/audio_send_stream.cc:274-278 | Two configurations, each constructible, between which a reconfiguration ends the program because the audio level id moves |
| SessionExamples.ExchangeEnds | source_code/audio/audio_send_stream.cc:280-326 | The same because the absolute times exchange ids |
| SessionExamples.MarkedStaysRegistered | source_code/audio/audio_send_stream.cc:773-780 | A run with a sending and registered stream, and its continuation in which the DSCP mark is set and the stream stays registered |
| SessionExamples.StartedWithoutFeedback | source_code/audio/audio_send_stream.cc:363-372 | A run whose start without feedback registers a stream without a transport sequence number, and its continuation in which a changed priority ends that |
| SessionExamples.EncoderStays | source_code/audio/audio_send_stream.cc:654-680 | A run in which an encoder that could not be created is not tried again |
| SessionExamples.LimitsGoStale | source_code/audio/audio_send_stream.cc:328-352 | A run after which the allocator has the limits from the encoder's old range, and the stream those from its new one |
| AudioStreams.AudioSendStream.Create | source_code/audio/audio_send_stream.cc:146-181 | Constructing and first configuring a stream does what the specification says, or fails a check exactly when it does |
| AudioStreams.AudioSendStream.ConfigureStream | source_code/audio/audio_send_stream.cc:229-355 | The same for every configuration, with what the callback is told |
| AudioStreams.AudioSendStream.UpdateHeaderExtensions | source_code/audio/audio_send_stream.cc:271-326 | The in-place extension updates are the specified ones, in the specified order |
| AudioStreams.AudioSendStream.UpdateChannel | source_code/audio/audio_send_stream.cc:247-269 | The in-place channel updates are the specified ones; the absence of a transformer is ignored |
| AudioStreams.AudioSendStream.ReconfigureSendCodec | source_code/audio/audio_send_stream.cc:583-698 | A new encoder is taken exactly when needed and created, and told to the audio state while sending |
| AudioStreams.AudioSendStream.StoreEncoderProperties | source_code/audio/audio_send_stream.cc:572-580 | Stores the encoder's rate and channels, and updates the audio state while sending |
| AudioStreams.AudioSendStream.GetMinMaxBitrateConstraints | source_code/audio/audio_send_stream.cc:848-898 | The step by step adjustment finds limits exactly where there are some, and they are the ones described above |
| AudioStreams.AudioSendStream.OnBitrateUpdated | source_code/audio/audio_send_stream.cc:500-514 | Forwards the clamped rate |
| AudioStreams.AudioSendStream.ConfigureBitrateObserver | source_code/audio/audio_send_stream.cc:801-841 | Registers with limits, priority bitrate and priority as specified; fails exactly when there are no limits |
| AudioStreams.AudioSendStream.RemoveBitrateObserver | source_code/audio/audio_send_stream.cc:843-846 | Deregisters |
| AudioStreams.AudioSendStream.UpdateOverheadPerPacket | source_code/audio/audio_send_stream.cc:527-543 | Updates the overhead, re-registers if registered, and tells the channel |
| AudioStreams.AudioSendStream.SetTransportOverheadPerPacket | source_code/audio/audio_send_stream.cc:520-525 | The same after a change of the transport's overhead |
| AudioStreams.AudioSendStream.ReconfigureBitrateObserver | source_code/audio/audio_send_stream.cc:767-799 | Keeps, renews or removes the registration as specified |
| AudioStreams.AudioSendStream.StartSending | source_code/audio/audio_send_stream.cc:357-377 | Starts as specified; idempotent |
| AudioStreams.AudioSendStream.StopSending | source_code/audio/audio_send_stream.cc:379-389 | Stops as specified; idempotent |
| AudioStreams.AudioReceiveStream.Start | source_code/audio/audio_receive_stream.cc:187-196 | Adds the stream to the audio state unless it is playing |
| AudioStreams.AudioReceiveStream.Stop | source_code/audio/audio_receive_stream.cc:198-207 | Removes it if it is playing |
| AudioStates.RunSafe | source_code/audio/audio_state.cc:54-210 | After every run settings and streams are what was last asked for, the poller runs exactly when there are receiving streams and playout was last disabled, the device plays only when there are receiving streams and playout was not, exactly then if it never refuses; likewise recording; the mixer's sources are receiving streams; the transport serves the sending streams |
| AudioStates.RunAsAsked | source_code/audio/audio_state.cc:54-177 | After every run the enabled flags and stereo swapping are the last request, receiving and sending streams are those last added, the latter with what they were last added with, and the mixer's sources those it took |
| AudioStates.RunDevice | source_code/audio/audio_state.cc:54-158 | The device plays if and only if some operation started it since when playout was asked for and there were receiving streams all the time; likewise recording |
| AudioStates.StepSafe | source_code/audio/audio_state.cc:54-210 | Every operation keeps this, and poller and device never run together |
| AudioStates.StepExact | source_code/audio/audio_state.cc:54-158 | Where device and mixer do not refuse, "only when" becomes "exactly when" |
| AudioStates.CaptureServes | source_code/audio/audio_state.cc:165-177 | The transport is told every sending stream once and the largest rate and channel count |
| AudioStates.CaptureReachesSenders | source_code/audio/audio_transport_impl.cc:38-56 | A recorded frame reaches each sending stream exactly once, at a rate that loses nothing for it unless it is the top native rate, and with all the channels it could use |
| AudioStates.AudioState.SetPlayout | source_code/audio/audio_state.cc:54-72 | Does what the playout step specifies |
| AudioStates.AudioState.SetRecording | source_code/audio/audio_state.cc:109-126 | Does what the recording step specifies |
| AudioStates.AudioState.AddReceivingStream | source_code/audio/audio_state.cc:74-95 | Does what adding a receiving stream specifies |
| AudioStates.AudioState.RemoveReceivingStream | source_code/audio/audio_state.cc:97-107 | Does what removing one specifies |
| AudioStates.AudioState.AddSendingStream | source_code/audio/audio_state.cc:128-148 | Does what adding or updating a sending stream specifies |
| AudioStates.AudioState.RemoveSendingStream | source_code/audio/audio_state.cc:150-158 | Does what removing one specifies |
| AudioStates.AudioState.UpdateNullAudioPollerState | source_code/audio/audio_state.cc:179-210 | The poller runs exactly when there are receiving streams and playout is disabled |
| AudioStates.AudioState.UpdateAudioTransportWithSendingStreams | source_code/audio/audio_state.cc:165-177 | Hands the transport the senders and both maxima |
| AudioStates.WalkStreams | source_code/audio/audio_state.cc:167-174 | The loop computes both maxima and the list of senders |
| AudioTransport.InitializeCaptureFrame | source_code/audio/audio_transport_impl.cc:42-56 | The frame's rate is the smallest native rate at least the smaller of input and send rate, or the top one; its channel count is the smaller one |
| AudioTransport.AudioTransport.SendProcessedData | source_code/audio/audio_transport_impl.cc:194-210 | Every registered sender gets exactly one frame, equal to the original |
| AudioTransport.AudioTransport.RecordedDataIsAvailable | source_code/audio/audio_transport_impl.cc:161-191 | Both of the above for one recorded block; with asynchronous processing the frame is handed over instead |
| HeaderExtensionMap.FindExtensionIds | source_code/audio/audio_send_stream.cc:202-223 | Each of the seven ids is that of the last entry with the field's own URI, or 0 if there is none |
| RtpExtensions.DeduplicateHeaderExtensions | source_code/api/rtp_parameters.cc:277-316 | The result is the canonical form: it holds exactly the representative of every URI, in ascending order of the URIs character by character |
| RtpExtensions.CanonicalUris | source_code/api/rtp_parameters.cc:280-305 | The canonical form has unique URIs, for exactly the URIs with an admitted entry |
| RtpExtensions.CanonicalUnique | source_code/api/rtp_parameters.cc:307-315 | There is only one canonical form |
| RtpExtensions.CanonicalIdempotent | source_code/api/rtp_parameters.cc:277-316 | It is its own canonical form |
| RtpExtensions.CanonicalOfPermutation | source_code/api/rtp_parameters.cc:307-308 | It does not depend on the order of an unambiguous list |
| RtpExtensions.AmbiguousOrderMatters | source_code/api/rtp_parameters.cc:284-304 | For every other list some rearrangement has a different canonical form |
| RtpExtensions.FindHeaderExtensionByUri | source_code/api/rtp_parameters.cc:224-263 | Returns the first admitted entry, or for the preferring filter without encrypted entry the last unencrypted one, or nothing |
| RtpExtensions.FindHeaderExtensionByUriAndEncryption | source_code/api/rtp_parameters.cc:265-275 | Returns the first entry with URI and encryption if there is one |
| RtpExtensions.HeaderExtensionWithUriExists | source_code/api/rtp_parameters.cc:213-222 | Tells whether some entry has the URI |
| RtpExtensions.LookupAgrees | source_code/api/rtp_parameters.cc:224-316 | Lookup and canonical form always agree on presence and encryption, and on the entry if and only if no choice between different unencrypted entries was needed |
| RtpExtensions.LookupDisagrees | source_code/api/rtp_parameters.cc:242-249 | Two unencrypted entries on which they differ |
| RtpExtensions.Sort | source_code/api/rtp_parameters.cc:309-313 | A permutation in ascending order of the URIs, where a URI comes before another if at the first difference it ends or has the smaller character |
| RtpExtensions.LessIs | source_code/api/rtp_parameters.cc:309-313 | The comparison is by URI in that order, then unencrypted before encrypted, then by id |
| RefCounting.RunKeepsLedger | source_code/api/scoped_refptr.h:78-160 | In every state of every run a live object's count is its handles plus the references owed, an object is destroyed exactly when it was used and that sum is zero, and when nothing refers to anything all used objects are destroyed |
| RefCounting.StepKeeps | source_code/api/scoped_refptr.h:78-160 | Every handle operation keeps the ledger |
| RefCounting.ReferencedIsLive | source_code/api/ref_counted_base.h:27-34 | Whatever a handle or an owed reference names is live, so no operation calls AddRef or Release on a destroyed object |
| RefCounting.StepKeepsDestroyed | source_code/api/ref_counted_base.h:28-34 | No operation revives a destroyed object |
| RefCounting.ActNames | source_code/api/scoped_refptr.h:78-160 | What the handles of an operation name after it: a new, assigned or swapped one what it was given, one moved or taken from nothing |
| RefCounting.ActNamesOthers | source_code/api/scoped_refptr.h:78-160 | All other handles name what they named before |
| RefCounting.ActOwes | source_code/api/scoped_refptr.h:112-158 | A reference is owed from being taken or swapped out until given back or swapped in, and only creation adds an object |
| RefCounting.AssignKeeps | source_code/api/scoped_refptr.h:124-132 | Assignment keeps the ledger, also of a handle's own object |
| RefCounting.AssignMoveKeeps | source_code/api/scoped_refptr.h:143-152 | So does move assignment |
| RefCounting.SwapKeeps | source_code/api/scoped_refptr.h:154-160 | So does swapping, also with itself |
| RefCounting.SwapRawKeeps | source_code/api/scoped_refptr.h:154-158 | So does swapping with a raw pointer that owns a reference |
| RefCounting.DestroyKeeps | source_code/api/scoped_refptr.h:103-106 | So does destroying a handle |
| RefCounting.MovesCountNothing | source_code/api/scoped_refptr.h:97-122 | Moving, swapping and releasing change no count |
| RefCounting.AssignDangles | source_code/api/scoped_refptr.h:124-132 | When a raw or copy assignment releases the old object, every handle names a live object if and only if the handle did not hold its last reference or is assigned the same object; that is exactly when no destructor runs |
| RefCounting.SoleHandleDangles | source_code/api/scoped_refptr.h:124-132 | A run after which assigning null leaves the handle naming a destroyed object while the destructor runs |
| RefCounting.MoveDoesNotDangle | source_code/api/scoped_refptr.h:143-160 | A move assignment is the move into a temporary, the swap and the temporary's destruction, and when the old object's destructor runs all handles name live objects and the ledger holds |
| RefCounting.RefCountedHeap.DecRef | source_code/api/ref_counted_base.h:28-34 | Subtracts one, and destroys the object and says so exactly when none remain |
| RefCounting.ScopedRefPtr.FromRaw | source_code/api/scoped_refptr.h:81-84 | Points to and counts the object |
| RefCounting.ScopedRefPtr.Copy | source_code/api/scoped_refptr.h:86-95 | Points to and counts the other handle's object |
| RefCounting.ScopedRefPtr.Move | source_code/api/scoped_refptr.h:97-101 | Takes over the pointer without counting |
| RefCounting.ScopedRefPtr.Destroy | source_code/api/scoped_refptr.h:103-106 | Releases the object, if any |
| RefCounting.ScopedRefPtr.release | source_code/api/scoped_refptr.h:118-122 | Hands out the pointer without counting |
| RefCounting.ScopedRefPtr.AssignRaw | source_code/api/scoped_refptr.h:124-132 | References the new object, then releases the old one |
| RefCounting.ScopedRefPtr.AssignCopy | source_code/api/scoped_refptr.h:134-141 | The same from a handle, possibly itself |
| RefCounting.ScopedRefPtr.AssignMove | source_code/api/scoped_refptr.h:143-152 | Takes over the pointer and releases the old object; a self-move changes nothing |
| RefCounting.ScopedRefPtr.Swap | source_code/api/scoped_refptr.h:160 | Exchanges two handles' pointers |
| RefCounting.ScopedRefPtr.SwapRaw | source_code/api/scoped_refptr.h:154-158 | Exchanges a handle's pointer with a raw one |
| RefCountedProgram.Program.NewObject | source_code/api/ref_counted_base.h:22-45 | Creates an object as the ledger's step says |
| RefCountedProgram.Program.NullHandle | source_code/api/scoped_refptr.h:78-79 | Adds a null handle as the ledger's step says |
| RefCountedProgram.Program.HandleFromRaw | source_code/api/scoped_refptr.h:81-84 | Adds a handle to an object likewise |
| RefCountedProgram.Program.CopyHandle | source_code/api/scoped_refptr.h:86-95 | Copies a handle likewise |
| RefCountedProgram.Program.MoveHandle | source_code/api/scoped_refptr.h:97-101 | Moves a handle likewise |
| RefCountedProgram.Program.DestroyHandle | source_code/api/scoped_refptr.h:103-106 | Destroys a handle likewise |
| RefCountedProgram.Program.TakeOutOf | source_code/api/scoped_refptr.h:118-122 | Releases a handle likewise and returns what it named |
| RefCountedProgram.Program.GiveBackOwed | source_code/api/ref_counted_base.h:28-34 | Gives back an owed reference likewise |
| RefCountedProgram.Program.AssignRawTo | source_code/api/scoped_refptr.h:124-132 | Assigns a raw pointer likewise |
| RefCountedProgram.Program.AssignCopyTo | source_code/api/scoped_refptr.h:134-141 | Assigns a copy likewise, also of itself |
| RefCountedProgram.Program.AssignMoveTo | source_code/api/scoped_refptr.h:143-152 | Assigns by moving likewise, also from itself |
| RefCountedProgram.Program.SwapHandles | source_code/api/scoped_refptr.h:160 | Swaps two handles likewise, also with itself |
| RefCountedProgram.Program.SwapRawWith | source_code/api/scoped_refptr.h:154-158 | Swaps with a raw pointer likewise and returns what the handle named |
| LegacyStatsOwnership.RunConserves | source_code/api/legacy_stats_types.cc:795-880 | In every state of every run, whatever the ids, each allocated report is in exactly one place of one list, or deleted, or leaked, and never two of these |
| LegacyStatsOwnership.AllDeletedExactly | source_code/api/legacy_stats_types.cc:795-799 | Once all collections and containers are gone, every report has been deleted if and only if no container was dropped with reports in it |
| LegacyStatsOwnership.DroppedContainerLeaks | source_code/api/legacy_stats_types.cc:845-852 | A run that leaks a report |
| LegacyStatsOwnership.StepConserved | source_code/api/legacy_stats_types.cc:795-870 | Every operation on any collection or container keeps this |
| LegacyStatsOwnership.StepRefinesMap | source_code/api/legacy_stats_types.h:446-477 | Among ids whose comparisons are valid and mean equality, each operation acts on the map from id to report: insert, find or insert, replace, empty into the container, override; keeps ids distinct; and leaves all other lists alone |
| LegacyStatsOwnership.RunRefinesMap | source_code/api/legacy_stats_types.h:446-477 | So does every step of every run that uses such ids |
| LegacyStatsOwnership.ComparableEnabled | source_code/api/legacy_stats_types.cc:816-880 | Among such ids an operation can be carried out if and only if its lists are there and an id to insert is absent |
| LegacyStatsOwnership.MapsExactly | source_code/api/legacy_stats_types.h:446-477 | For a set of ids, after every run an operation that a map admits can be carried out and does what it does to a map, if and only if all comparisons among the ids are valid and mean equality |
| LegacyStatsOwnership.IncomparablePair | source_code/api/legacy_stats_types.cc:874-880 | For every pair of ids of which this is not true, a run after which looking for one is an invalid cast, or wrongly finds the other |
| LegacyStatsOwnership.ClassesMix | source_code/api/legacy_stats_types.cc:82-124 | Ids of one type and of two classes are comparable if and only if their texts differ |
| LegacyStatsOwnership.OtherClassIsFound | source_code/api/legacy_stats_types.cc:207-209 | A run in which an id of another class is taken for the bandwidth estimation id, so that no map is refined |
| LegacyStatsOwnership.MergeConserved | source_code/api/legacy_stats_types.cc:854-870 | Merging conserves ownership |
| LegacyStats.MergeIsOverride | source_code/api/legacy_stats_types.cc:854-870 | Merging a container with distinct ids is map override by the incoming side, and keeps ids distinct |
| LegacyStats.MergeIntoEmpty | source_code/api/legacy_stats_types.cc:845-870 | Merging a detached list into an empty collection restores it and deletes nothing |
| LegacyStats.FindIsLookup | source_code/api/legacy_stats_types.cc:874-880 | Searching the list is looking up the map |
| LegacyStats.MergeOneIsUpdate | source_code/api/legacy_stats_types.cc:860-868 | One round of the merge is a map update |
| LegacyStats.EqualsMeansEqual | source_code/api/legacy_stats_types.cc:77-217 | Comparing two ids is defined and means equality if and only if their types differ, their classes agree, or their texts differ |
| LegacyStats.EqualsNotSymmetric | source_code/api/legacy_stats_types.cc:82-124 | A pair on which it is not symmetric |
| LegacyStats.EqualsElsewhere | source_code/api/legacy_stats_types.cc:77-209 | A comparison takes two different ids for equal if and only if they are of one type and this is the bandwidth estimation id or both have the same text and this class looks no further; it is undefined exactly where the types agree and the cast is invalid |
| LegacyStats.FixedTypes | source_code/api/legacy_stats_types.cc:70-200 | The types of the classes that have one of their own, seen in how an id of that type and another class compares with them |
| LegacyStats.ComparableExactly | source_code/api/legacy_stats_types.cc:77-217 | All comparisons among a set of ids are valid and mean equality if and only if ids of one type are of one class or have texts that differ |
| LegacyStats.LocatedIsIndex | source_code/api/legacy_stats_types.cc:874-880 | Among such ids the search with the ids' comparisons is defined and goes by equality |
| LegacyStats.MergeLocatedIsMerge | source_code/api/legacy_stats_types.cc:854-870 | And so does the merge |
| LegacyStats.StatsCollection.Search | source_code/api/legacy_stats_types.cc:874-880 | Ends at the first report whose own comparison accepts the id; among comparable ids, that is the first report with the id |
| LegacyStats.StatsCollection.FindReport | source_code/api/legacy_stats_types.cc:874-880 | Returns the report that the search ends at; among comparable ids, what the map holds under the id |
| LegacyStats.StatsCollection.InsertNew | source_code/api/legacy_stats_types.cc:816-822 | Appends a new report for an id that is not found |
| LegacyStats.StatsCollection.FindOrAddNew | source_code/api/legacy_stats_types.cc:824-828 | Returns the report, or appends a new one |
| LegacyStats.StatsCollection.ReplaceOrAddNew | source_code/api/legacy_stats_types.cc:830-843 | A new report, with the old one's id, takes the place of the one found, which is deleted; or one with the given id the end |
| LegacyStats.StatsCollection.DetachCollection | source_code/api/legacy_stats_types.cc:845-852 | Hands over the list and leaves none |
| LegacyStats.StatsCollection.MergeCollection | source_code/api/legacy_stats_types.cc:854-870 | The loop merges all and deletes exactly the displaced reports |
| LegacyStats.StatsCollection.Destroy | source_code/api/legacy_stats_types.cc:795-799 | Deletes exactly the reports in the list |
| FieldTrials.ParseExact | source_code/api/field_trials.cc:26-53 | From any starting map, parsing succeeds if and only if the string spells `key/value/` pairs of valid parts that agree with each other and the map; the result is the map plus the pairs |
| FieldTrials.ParseSound | source_code/api/field_trials.cc:37-53 | Every accepted string spells agreeing entries |
| FieldTrials.ParseComplete | source_code/api/field_trials.cc:37-53 | Every spelling of agreeing entries is accepted and adds exactly them |
| FieldTrials.NextKeyOrValue | source_code/api/field_trials.cc:26-35 | Cuts at the first separator, or takes nothing |
| FieldTrials.Parse | source_code/api/field_trials.cc:37-53 | The loop is the specified parser, ends, and never loses an entry of the starting map |
| FieldTrials.RenderRoundTrip | source_code/api/field_trials.h:37-46 | A valid map written as `key/value/` in any order parses back to itself |
| FieldTrials.StringifyRejected | source_code/api/field_trials.h:88-99 | The human readable form of a non-empty collection is rejected from any starting map |
| FieldTrials.StringifyAt | source_code/api/field_trials.h:88-99 | Every trial stands in the human readable form as trial, separator, group and two separators, between those before and after |
| FieldTrials.StringifyInjective | source_code/api/field_trials.h:88-99 | Two lists of valid trials with the same human readable form are equal |
| FieldTrials.BuildValid | source_code/api/field_trials.cc:57-95 | Everything that can be built by parsing, merging and setting has only valid parts, so a lookup is empty exactly when the trial is absent |
| FieldTrials.SetExact | source_code/api/field_trials.cc:77-86 | Setting a trial fails exactly for an empty trial or a separator in either part; otherwise that trial and no other has the new group, and is gone if it is empty |
| FieldTrials.MergeLaws | source_code/api/field_trials.cc:71-86 | Merging is associative, the other side wins, and a trial absent there is never erased |
| FieldTrials.BuildPrinting | source_code/api/field_trials.h:88-99 | Whatever was built round-trips through `key/value/` and is, unless empty, rejected in its human readable form |
| FieldTrials.FieldTrials.Create | source_code/api/field_trials.cc:57-65 | Null exactly for the strings that are refused |
| FieldTrials.FieldTrials.Merge | source_code/api/field_trials.cc:71-75 | Override by the other side, which may be the same object |
| FieldTrials.FieldTrials.Set | source_code/api/field_trials.cc:77-86 | Sets, or removes for an empty group; fails its checks exactly for invalid parts, changing nothing |
| FieldTrials.FieldTrials.GetValue | source_code/api/field_trials.cc:88-95 | The group, or empty |
| FieldTrials.FieldTrials.AbslStringify | source_code/api/field_trials.h:88-99 | Writes the human readable form, which is not parsable unless empty |
| AudioLevel.LevelClosedForm | source_code/audio/audio_level.cc:55-82 | After m complete windows of 11 frames the level is the largest of the window peaks, each divided by 4 once per later update |
| AudioLevel.LevelRange | source_code/audio/audio_level.h:31-36 | The level is in 0..32767, and 0 if and only if every window peak has been divided away |
| AudioLevel.SilentAfterEightUpdates | source_code/audio/audio_level.cc:75-82 | Eight updates after the window of the last non-silent frame the level is 0 |
| AudioLevel.AudibleAfterSevenUpdates | source_code/audio/audio_level.cc:75-82 | After seven a peak of at least 16384 is still heard |
| AudioLevel.ExecuteExact | source_code/audio/audio_level.cc:24-95 | A run's level depends only on the frames since the last reset, and its totals are, since the last full reset, the sum of what each frame is charged for the level after it, and the sum of durations |
| AudioLevel.EnergyExactly | source_code/audio/audio_level.cc:84-95 | A run's total energy times 32767 squared is the sum, since the last full reset, of each frame's squared level times its duration |
| AudioLevel.EnergyBounds | source_code/audio/audio_level.cc:84-95 | With non-negative durations the totals never decrease short of a full reset, a level reset keeps them, and energy never exceeds duration |
| AudioLevel.MaxAbsValue | source_code/common_audio/signal_processing/min_max_operations.c:38-58 | The largest magnitude, with -32768 counted as 32767 |
| AudioLevel.AudioLevel.ComputeLevel | source_code/audio/audio_level.cc:55-95 | One frame advances the meter by the frame's peak and charges the level after the update |
| AudioLevel.ChargeIs | source_code/audio/audio_level.cc:90-94 | A charge times 32767 squared is the squared level times the duration |
| AudioLevel.AudioLevel.ResetLevelFullRange | source_code/audio/audio_level.cc:38-43 | Clears the level and keeps both totals |
| IcePriority.PriorityIsSum | source_code/api/candidate.cc:139-180 | In range, the or of shifted fields is the sum of section 4.1.2.1 of RFC 5245, fits 32 bits, and every field can be read back |
| IcePriority.PriorityOrder | source_code/api/candidate.cc:143-180 | Priorities compare by type preference, local preference, and then the lower component |
| IcePriority.RelayNotAboveDirect | source_code/api/candidate.cc:164-177 | With the adjustment, a relayed candidate is not above a direct one in the low 24 bits if and only if its extra relay preference is at most 32 |
| IcePriority.LocalIsSum | source_code/api/candidate.cc:160-177 | The local preference is the sum of its parts and fits 16 bits |
| IcePriority.OrOfShifted | source_code/api/candidate.cc:179 | Bitwise or with a shifted operand adds when no bit is shared |

## Left out

- Threads, mutexes, sequence checkers and atomics: operations are steps of one sequence.
- Encoders, comfort noise and RED wrapping, the network adaptor, resampling, remixing, audio processing and the mixer's arithmetic are foreign: they appear as arbitrary answers or opaque tokens.
- The pacer and probing flags on the RTP transport, the event log, telephone events, muting and statistics getters: single calls without state of the stream's own.
- Congestion control registration of the channel and the suspended RTP state: set and forgotten within one call.
- The allocator's distribution of the bandwidth, and its call backs to other streams during a registration, which are separate steps of a run.
- Saturation of `DataRate` at infinity and narrowing of limits to 32 bits: rates are unbounded integers.
- AudioStates.RunSafe: takes for granted that stopping the device succeeds and that nobody else drives it.
- AudioLevel.EnergyBounds: doubles are reals, rounding is not modelled.
- LegacyStats.StatsCollection.Search: every comparison on the way must be a valid cast, because an invalid one is undefined.
- Copies of a detached container, which would share its reports: a container is handed over to the merge or dropped.
- A configuration's header extension list is held as the ids that `FindExtensionIds` reads from it, so two lists with the same ids are one configuration.
- The values inside a stats report, and the text form of ids.
- Candidate fields other than those the priority reads; address precedence is any value from 0 to 255.
- Pure interfaces, enum tables, `ArrayView`, `FunctionView`, `RTCErrorOr`, `Notifier` and similar small types: real but easy next to the above.
