/** The capture side of the audio transport: which format a captured frame is
    processed in, and how it is handed to the sending streams. */
module AudioTransport {
  import opened Common

  const NATIVE_RATES := [8000, 16000, 32000, 48000]

  /** A frame's format and, as an opaque token, its processed samples. */
  datatype Frame = Frame(sampleRateHz: int, samplesPerChannel: int, numChannels: nat, payload: nat)

  datatype Delivery = Delivery(sender: nat, frame: Frame)

  datatype Capture = Capture(senders: seq<nat>, sampleRateHz: int, numChannels: nat, swapStereo: bool)

  /** The lowest native rate that loses nothing, or the highest there is. */
  ghost predicate IsCaptureRate(rate: int, wanted: int) {
    || (rate == 8000 && wanted <= 8000)
    || (rate == 16000 && 8000 < wanted <= 16000)
    || (rate == 32000 && 16000 < wanted <= 32000)
    || (rate == 48000 && 32000 < wanted)
  }

  /** Every sender gets the frame exactly once, and nobody else gets one. */
  ghost predicate FansOut(deliveries: seq<Delivery>, senders: seq<nat>, frame: Frame) {
    && multiset(Receivers(deliveries)) == multiset(senders)
    && forall d | d in deliveries :: d.frame == frame
  }

  function Receivers(deliveries: seq<Delivery>): seq<nat> {
    seq(|deliveries|, i requires 0 <= i < |deliveries| => deliveries[i].sender)
  }

  method InitializeCaptureFrame(inputRate: int, sendRate: int, inputChannels: nat, sendChannels: nat, payload: nat)
    returns (frame: Frame)
    ensures IsCaptureRate(frame.sampleRateHz, Min(inputRate, sendRate))
    ensures frame.samplesPerChannel == frame.sampleRateHz / 100
    ensures frame.numChannels == Min(inputChannels, sendChannels)
    ensures frame.payload == payload
  {
    var minProcessingRate := Min(inputRate, sendRate);
    frame := Frame(0, 0, 0, payload);
    var i := 0;
    while i < |NATIVE_RATES|
      invariant 0 <= i <= |NATIVE_RATES|
      invariant forall j | 0 <= j < i :: NATIVE_RATES[j] < minProcessingRate
      invariant 0 < i ==> frame.sampleRateHz == NATIVE_RATES[i - 1]
      invariant frame.samplesPerChannel == frame.sampleRateHz / 100 && frame.payload == payload
    {
      var nativeRate := NATIVE_RATES[i];
      frame := frame.(sampleRateHz := nativeRate, samplesPerChannel := nativeRate / 100);
      if nativeRate >= minProcessingRate {
        break;
      }
      i := i + 1;
    }
    frame := frame.(numChannels := Min(inputChannels, sendChannels));
  }

  class AudioTransport {
    var audioSenders: seq<nat>
    var sendSampleRateHz: int
    var sendNumChannels: nat
    var swapStereoChannels: bool

    function View(): Capture
      reads this
    {
      Capture(audioSenders, sendSampleRateHz, sendNumChannels, swapStereoChannels)
    }

    constructor ()
      ensures View() == Capture([], 8000, 1, false)
    {
      audioSenders, sendSampleRateHz, sendNumChannels, swapStereoChannels := [], 8000, 1, false;
    }

    method UpdateAudioSenders(senders: seq<nat>, sampleRateHz: int, numChannels: nat)
      modifies this
      ensures View() == Capture(senders, sampleRateHz, numChannels, old(swapStereoChannels))
    {
      audioSenders := senders;
      sendSampleRateHz := sampleRateHz;
      sendNumChannels := numChannels;
    }

    method SetStereoChannelSwapping(enable: bool)
      modifies this
      ensures View() == old(View()).(swapStereo := enable)
    {
      swapStereoChannels := enable;
    }

    /** Copies for all but the first sender, which gets the frame itself. */
    method SendProcessedData(frame: Frame) returns (deliveries: seq<Delivery>)
      ensures FansOut(deliveries, audioSenders, frame)
    {
      deliveries := [];
      if audioSenders == [] {
        return;
      }
      var it := 1;
      while it < |audioSenders|
        invariant 1 <= it <= |audioSenders|
        invariant Receivers(deliveries) == audioSenders[1..it]
        invariant forall d | d in deliveries :: d.frame == frame
      {
        var frameCopy := frame;
        var delivery := Delivery(audioSenders[it], frameCopy);
        assert Receivers(deliveries + [delivery]) == Receivers(deliveries) + [audioSenders[it]];
        deliveries := deliveries + [delivery];
        it := it + 1;
      }
      deliveries := deliveries + [Delivery(audioSenders[0], frame)];
      assert Receivers(deliveries) == audioSenders[1..] + [audioSenders[0]];
      assert audioSenders == [audioSenders[0]] + audioSenders[1..];
    }

    /** What becomes of 10 ms of recorded samples. With asynchronous processing
        the frame is handed over, and comes back to SendProcessedData later. */
    method RecordedDataIsAvailable(sampleRate: int, numberOfChannels: nat, processed: nat, asynchronous: bool)
      returns (frame: Frame, deliveries: seq<Delivery>, handedOver: Option<Frame>)
      ensures IsCaptureRate(frame.sampleRateHz, Min(sampleRate, sendSampleRateHz))
      ensures frame.numChannels == Min(numberOfChannels, sendNumChannels) && frame.payload == processed
      ensures !asynchronous ==> FansOut(deliveries, audioSenders, frame) && handedOver == None
      ensures asynchronous ==> deliveries == [] && handedOver == Some(frame)
    {
      frame := InitializeCaptureFrame(sampleRate, sendSampleRateHz, numberOfChannels, sendNumChannels, processed);
      if asynchronous {
        deliveries, handedOver := [], Some(frame);
      } else {
        deliveries := SendProcessedData(frame);
        handedOver := None;
      }
    }
  }
}
