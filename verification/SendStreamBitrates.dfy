/** The bitrate limits of a send stream, what it forwards to the channel, and
    when it is registered with the bitrate allocator. */
module SendStreamBitrates {
  import opened Common
  import opened SendStreamSpec

  // ----------------------------------------------------------------------- limits

  lemma DivMonotone(x: int, y: int, d: int)
    requires x <= y && 0 < d
    ensures x / d <= y / d
  {
    var p, q := x / d, y / d;
    assert x == d * p + x % d && y == d * q + y % d;
    assert d * p == d * q + d * (p - q);
    if q < p { MulAtLeast(d, p - q); }
  }

  lemma DivAntitone(x: int, d: int, e: int)
    requires 0 <= x && 0 < d <= e
    ensures 0 <= x / e <= x / d
  {
    var p, q := x / d, x / e;
    assert x == d * p + x % d && x == e * q + x % e;
    MulMonotone(d, e, q);
    assert d * q == d * p + d * (q - p);
    if p < q { MulAtLeast(d, q - p); }
  }

  lemma MulMonotone(d: int, e: int, q: int)
    requires d <= e && 0 <= q
    ensures d * q <= e * q
  {
  }

  predicate Ordered(f: FrameLengths) { f.shortest <= f.longest }

  /** Rates are not negative and frame lengths are a range. */
  predicate PlausibleInputs(st: Stream) {
    && (st.settings.minBitrate.Some? ==> 0 <= st.settings.minBitrate.value)
    && (st.settings.maxBitrate.Some? ==> 0 <= st.settings.maxBitrate.value)
    && (st.bitrateRange.Some? ==> 0 <= st.bitrateRange.value.min && 0 <= st.bitrateRange.value.max)
    && (st.frameLengths.Some? ==> Ordered(st.frameLengths.value))
  }

  /** The limits are a range of rates even after the two overheads, each rounded
      down on its own, have been added. */
  lemma LimitsOrdered(st: Stream)
    requires PlausibleInputs(st) && Constraints(st).Some?
    ensures 0 <= Constraints(st).value.min <= Constraints(st).value.max
  {
    if !st.settings.legacyOverhead {
      var f := st.frameLengths.value;
      DivAntitone(st.overhead * 8000000, f.shortest, f.longest);
    }
  }

  /** More overhead per packet never takes the limits away, and never lowers
      either of them; the legacy calculation does not see it. */
  lemma LimitsMonotone(st: Stream, overhead: nat)
    requires st.overhead <= overhead
    ensures Constraints(st).Some? <==> Constraints(st.(overhead := overhead)).Some?
    ensures Constraints(st).Some? ==>
              && Constraints(st).value.min <= Constraints(st.(overhead := overhead)).value.min
              && Constraints(st).value.max <= Constraints(st.(overhead := overhead)).value.max
    ensures st.settings.legacyOverhead ==> Constraints(st) == Constraints(st.(overhead := overhead))
  {
    if st.frameLengths.Some? {
      var f := st.frameLengths.value;
      DivMonotone(st.overhead * 8000000, overhead * 8000000, f.shortest);
      DivMonotone(st.overhead * 8000000, overhead * 8000000, f.longest);
    }
  }

  /** The rate forwarded to the channel lies within the limits, and is the
      allocated one if that does. */
  lemma ForwardedWithinLimits(st: Stream, target: int)
    requires PlausibleInputs(st) && Constraints(st).Some?
    ensures var r, t := Constraints(st).value, BitrateUpdated(st, target).channel.target.value;
            r.min <= t <= r.max && (r.min <= target <= r.max ==> t == target)
  {
    LimitsOrdered(st);
  }

  lemma ReconfigureEffect(sc: Scene, c: Config, granted: int)
    requires !ObserverUnchanged(sc.stream.config, c) && Allocatable(c)
    requires ReconfigureObserver(sc, c, granted).Some?
    ensures var after := ReconfigureObserver(sc, c, granted).value;
            var limits := Constraints(after.stream.(config := c));
            && limits.Some?
            && after.stream.channel.target == Some(Clamped(granted, limits.value))
            && after.stream.id in after.allocator
            && after.allocator[after.stream.id].minBps == limits.value.min
            && after.allocator[after.stream.id].maxBps == limits.value.max
  {
  }

  /** The call back from a registration already sees the limits of the new
      configuration, and so does the allocator. */
  lemma RegistrationUsesNewLimits(sc: Scene, c: Config, env: Env)
    requires sc.stream.sending && !ObserverUnchanged(sc.stream.config, c) && Allocatable(c)
    requires Configure(sc, c, false, env).Some?
    ensures var after := Configure(sc, c, false, env).value;
            var limits := Constraints(after.stream);
            && limits.Some?
            && after.stream.channel.target == Some(Clamped(env.regranted, limits.value))
            && after.stream.id in after.allocator
            && after.allocator[after.stream.id].minBps == limits.value.min
            && after.allocator[after.stream.id].maxBps == limits.value.max
  {
    var ranged := RangedScene(sc, c, env);
    ReconfigureEffect(ranged, c, env.regranted);
  }

  // -------------------------------------------------------- the limits, exactly

  /** The limits under the current configuration and overhead, but from these
      ranges of the encoder. */
  function LimitsWith(st: Stream, r: Ranges): Option<Rates> {
    LimitsFor(st.config.minBitrateBps, st.config.maxBitrateBps, st.settings, r.bitrateRange, r.frameLengths, st.overhead)
  }

  function CurrentRanges(st: Stream): Ranges { Ranges(st.frameLengths, st.bitrateRange) }

  /** `q` is what so many bytes per `d` microseconds are in bits per second,
      rounded down. */
  ghost predicate IsRate(q: int, bytes: nat, d: int) {
    d * q <= 8000000 * bytes < d * (q + 1)
  }

  lemma RateIs(bytes: nat, d: Micros)
    ensures IsRate(Rate(bytes, d), bytes, d)
  {
    var q := Rate(bytes, d);
    assert bytes * 8000000 == d * q + bytes * 8000000 % d;
    assert d * (q + 1) == d * q + d;
  }

  /** The encoder's rate, or else the field trial's, or else the configured one. */
  function Chosen(encoder: Option<int>, trial: Option<int>, configured: int): int {
    if encoder.Some? then encoder.value else if trial.Some? then trial.value else configured
  }

  function LowerRate(st: Stream, r: Ranges): int {
    Chosen(if r.bitrateRange.Some? then Some(r.bitrateRange.value.min) else None, st.settings.minBitrate,
           st.config.minBitrateBps)
  }

  function UpperRate(st: Stream, r: Ranges): int {
    Chosen(if r.bitrateRange.Some? then Some(r.bitrateRange.value.max) else None, st.settings.maxBitrate,
           st.config.maxBitrateBps)
  }

  /** The configured limits are set, the chosen rates are in order, and the
      overhead can be calculated. */
  ghost predicate HasLimits(st: Stream, r: Ranges) {
    && 0 <= st.config.minBitrateBps && 0 <= st.config.maxBitrateBps
    && LowerRate(st, r) <= UpperRate(st, r)
    && (st.settings.legacyOverhead || r.frameLengths.Some?)
  }

  /** The limits are the chosen rates plus the overhead: that of the longest
      frames for the lower and of the shortest for the upper, or 6666 bits per
      second for both in the legacy calculation. */
  ghost predicate AreLimits(st: Stream, r: Ranges, limits: Rates) {
    var low, high := limits.min - LowerRate(st, r), limits.max - UpperRate(st, r);
    && HasLimits(st, r)
    && (if st.settings.legacyOverhead then low == high == 6666
        else IsRate(low, st.overhead, r.frameLengths.value.longest) &&
             IsRate(high, st.overhead, r.frameLengths.value.shortest))
  }

  lemma LimitsExactly(st: Stream, r: Ranges)
    ensures LimitsWith(st, r).Some? <==> HasLimits(st, r)
    ensures LimitsWith(st, r).Some? ==> AreLimits(st, r, LimitsWith(st, r).value)
  {
    if r.frameLengths.Some? {
      RateIs(st.overhead, r.frameLengths.value.longest);
      RateIs(st.overhead, r.frameLengths.value.shortest);
    }
  }

  /** The rate itself without limits, and else the nearest rate within them. */
  ghost predicate IsForwarded(st: Stream, target: int, forwarded: int) {
    var r := CurrentRanges(st);
    if !HasLimits(st, r) then forwarded == target
    else exists limits ::
           && AreLimits(st, r, limits) && limits.min <= limits.max
           && forwarded == if target < limits.min then limits.min else if limits.max < target then limits.max else target
  }

  /** That is what is forwarded for an allocated rate; nothing else changes. */
  lemma ForwardedExactly(st: Stream, target: int)
    requires PlausibleInputs(st)
    ensures var after := BitrateUpdated(st, target);
            && after.channel.target.Some?
            && after == st.(channel := st.channel.(target := after.channel.target))
            && IsForwarded(st, target, after.channel.target.value)
  {
    LimitsExactly(st, CurrentRanges(st));
    if Constraints(st).Some? {
      LimitsOrdered(st);
      assert AreLimits(st, CurrentRanges(st), Constraints(st).value);
    }
  }

  /** In particular, without any override a rate that is at least the lower limit
      and within the configured range is forwarded unchanged. */
  lemma ConfiguredRateForwarded(st: Stream, target: int, limits: Rates)
    requires PlausibleInputs(st) && st.bitrateRange == None
    requires st.settings.minBitrate == None && st.settings.maxBitrate == None
    requires AreLimits(st, CurrentRanges(st), limits)
    requires limits.min <= target && st.config.minBitrateBps <= target <= st.config.maxBitrateBps
    ensures BitrateUpdated(st, target).channel.target == Some(target)
  {
    LimitsExactly(st, CurrentRanges(st));
    LimitsOrdered(st);
    var r := Constraints(st).value;
    AreLimitsUnique(st, CurrentRanges(st), limits, r);
    if !st.settings.legacyOverhead {
      IsRateNonNegative(r.max - st.config.maxBitrateBps, st.overhead, st.frameLengths.value.shortest);
    }
  }

  lemma IsRateNonNegative(q: int, bytes: nat, d: int)
    requires 0 < d && IsRate(q, bytes, d)
    ensures 0 <= q
  {
    if q + 1 <= 0 { MulMonotone(q + 1, 0, d); }
  }

  lemma IsRateUnique(q: int, p: int, bytes: nat, d: int)
    requires 0 < d && IsRate(q, bytes, d) && IsRate(p, bytes, d)
    ensures q == p
  {
    if q < p { MulMonotone(q + 1, p, d); }
    if p < q { MulMonotone(p + 1, q, d); }
  }

  /** There is only one pair of limits. */
  lemma AreLimitsUnique(st: Stream, r: Ranges, a: Rates, b: Rates)
    requires AreLimits(st, r, a) && AreLimits(st, r, b)
    ensures a == b
  {
    if !st.settings.legacyOverhead {
      var low, high := LowerRate(st, r), UpperRate(st, r);
      IsRateUnique(a.min - low, b.min - low, st.overhead, r.frameLengths.value.longest);
      IsRateUnique(a.max - high, b.max - high, st.overhead, r.frameLengths.value.shortest);
    }
  }

  /** A registration: its limits; as priority bitrate nothing unless enabled, the
      raw field trial value, or the field trial's plus the overhead of the longest
      frames, 20000 bits per second in the legacy calculation; and the field
      trial's bitrate priority or else the configured one. */
  ghost predicate IsAllocation(a: Allocation, st: Stream, r: Ranges) {
    && AreLimits(st, r, Rates(a.minBps, a.maxBps))
    && (if !st.settings.enablePriority then a.priorityBps == 0
        else if st.settings.priorityBitrateRaw.Some? then a.priorityBps == st.settings.priorityBitrateRaw.value
        else if st.settings.legacyOverhead then a.priorityBps == st.settings.priorityBitrate + 20000
        else IsRate(a.priorityBps - st.settings.priorityBitrate, st.overhead, r.frameLengths.value.longest))
    && (if st.settings.bitratePriority.Some? then a.bitratePriority == st.settings.bitratePriority.value
        else a.bitratePriority == st.config.bitratePriority)
  }

  lemma AllocationExactly(st: Stream)
    requires Constraints(st).Some?
    ensures IsAllocation(AllocationFor(st), st, CurrentRanges(st))
  {
    LimitsExactly(st, CurrentRanges(st));
    if st.frameLengths.Some? { RateIs(st.overhead, st.frameLengths.value.longest); }
  }

  /** A start that registers forwards the rate granted then, within the limits; so
      does a change of overhead that renews a registration, within the new ones. */
  lemma RegistrationForwards(sc: Scene, env: Env)
    requires !sc.stream.sending && Start(sc, env).Some?
    ensures Start(sc, env).value.stream.channel.target ==
            if Asks(sc.stream.config, !sc.stream.settings.withoutFeedback)
            then BitrateUpdated(sc.stream, env.granted).channel.target else sc.stream.channel.target
    ensures PlausibleInputs(sc.stream) && Asks(sc.stream.config, !sc.stream.settings.withoutFeedback) ==>
              IsForwarded(sc.stream, env.granted, Start(sc, env).value.stream.channel.target.value)
  {
    if PlausibleInputs(sc.stream) { ForwardedExactly(sc.stream, env.granted); }
  }

  lemma RenewalForwards(sc: Scene, rtpOverhead: nat, granted: int)
    requires UpdateOverhead(sc, rtpOverhead, granted).Some?
    ensures var total := sc.stream.transportOverhead + rtpOverhead;
            UpdateOverhead(sc, rtpOverhead, granted).value.stream.channel.target ==
            if sc.stream.registered && sc.stream.overhead != total
            then BitrateUpdated(sc.stream.(overhead := total), granted).channel.target else sc.stream.channel.target
  {
  }

  // ----------------------------------------------------------------- registration

  /** The scene in which a reconfiguration reaches the bitrate observer. */
  lemma RangedScene(sc: Scene, c: Config, env: Env) returns (ranged: Scene)
    requires Configure(sc, c, false, env).Some?
    ensures ranged.stream.config == sc.stream.config
    ensures ranged.stream.sending == sc.stream.sending && ranged.stream.registered == sc.stream.registered
    ensures ranged.stream.rtp.partOfAllocation == sc.stream.rtp.partOfAllocation
    ensures ranged.stream.settings == sc.stream.settings && ranged.stream.history == sc.stream.history
    ensures ranged.stream.startedAt == sc.stream.startedAt
    ensures var observed := if sc.stream.sending then ReconfigureObserver(ranged, c, env.regranted) else Some(ranged);
            && observed.Some?
            && Configure(sc, c, false, env).value ==
               var st := observed.value.stream;
               observed.value.(stream := st.(config := c, history := st.history + [c], answers := st.answers + [env.created]))
  {
    var extended := ConfigureExtensions(ConfigureChannel(sc.stream, c, false), c, false);
    var coded := ConfigureCodec(sc.(stream := extended.value), c, env.created, env.reply);
    var counted := UpdateOverhead(coded, env.rtpOverhead, env.granted).value;
    OverheadKeepsRegistration(coded, env.rtpOverhead, env.granted);
    ranged := counted.(stream := ReadRanges(counted.stream, env));
  }

  lemma OverheadKeepsRegistration(sc: Scene, rtpOverhead: nat, granted: int)
    requires UpdateOverhead(sc, rtpOverhead, granted).Some?
    ensures var st := UpdateOverhead(sc, rtpOverhead, granted).value.stream;
            st.registered == sc.stream.registered && st.sending == sc.stream.sending && st.config == sc.stream.config &&
            st.rtp == sc.stream.rtp && st.settings == sc.stream.settings && st.history == sc.stream.history &&
            st.startedAt == sc.stream.startedAt
  {
  }

  /** The configuration has both limits. */
  predicate HasBoth(c: Config) { c.minBitrateBps != -1 && c.maxBitrateBps != -1 }

  /** The configuration asks for allocation: both limits, no DSCP mark, and where
      feedback is needed, a transport sequence number. */
  predicate Asks(c: Config, feedback: bool) {
    HasBoth(c) && !c.hasDscp && (feedback ==> c.ids.transportSequenceNumber != 0)
  }

  /** Two configurations are the same in what a registration is compared on. */
  predicate SameCompared(c: Config, d: Config) {
    && c.minBitrateBps == d.minBitrateBps && c.maxBitrateBps == d.maxBitrateBps
    && c.bitratePriority == d.bitratePriority && c.networkAdaptor == d.networkAdaptor
    && c.ids.transportSequenceNumber == d.ids.transportSequenceNumber
  }

  /** A sending stream is registered exactly when its configuration sets both
      limits, has no DSCP and asks for transport feedback, and the RTP module
      knows it. */
  ghost predicate Regular(st: Stream) {
    st.sending ==> (st.registered <==> Asks(st.config, true)) && st.rtp.partOfAllocation == st.registered
  }

  /** A reconfiguration leaves a sending stream regular exactly when something
      that the observer is compared on has changed, or the registration it had is
      by chance the one that is asked for. For a stream that was regular, the
      latter fails when only the DSCP mark decides, and changes. */
  lemma ReconfigureRegularity(sc: Scene, c: Config, env: Env)
    requires sc.stream.sending && Configure(sc, c, false, env).Some?
    ensures Regular(Configure(sc, c, false, env).value.stream) <==>
            || !SameCompared(sc.stream.config, c)
            || (sc.stream.registered == Asks(c, true) && sc.stream.rtp.partOfAllocation == sc.stream.registered)
    ensures Regular(sc.stream) ==>
              (Regular(Configure(sc, c, false, env).value.stream) <==>
               || !SameCompared(sc.stream.config, c) || sc.stream.config.hasDscp == c.hasDscp
               || !(HasBoth(c) && c.ids.transportSequenceNumber != 0))
  {
    var ranged := RangedScene(sc, c, env);
  }

  /** Starting makes a stream regular exactly unless allocation without feedback
      registers one that asks for none. */
  lemma StartRegularity(sc: Scene, env: Env)
    requires !sc.stream.sending && !sc.stream.registered && Start(sc, env).Some?
    ensures Regular(Start(sc, env).value.stream) <==>
            !(sc.stream.settings.withoutFeedback && !sc.stream.config.hasDscp && HasBoth(sc.stream.config)
              && sc.stream.config.ids.transportSequenceNumber == 0)
  {
  }

  /** Marking a registered stream with a DSCP, and nothing else, leaves it with
      the allocator. */
  lemma DscpAloneKeepsRegistration(sc: Scene, env: Env)
    requires sc.stream.sending && sc.stream.registered
    requires Configure(sc, sc.stream.config.(hasDscp := true), false, env).Some?
    ensures var st := Configure(sc, sc.stream.config.(hasDscp := true), false, env).value.stream;
            st.sending && st.registered && !Asks(st.config, true)
  {
  }

  // ----------------------------------------------------------- whole runs, exactly

  /** The configuration that decided about the registration: the last one since
      the start that changed something the observer is compared on, or else the
      one that the stream was started with. */
  function Deciding(history: seq<Config>, startedAt: nat): (k: nat)
    requires 1 <= startedAt <= |history|
    ensures startedAt - 1 <= k < |history|
    ensures startedAt - 1 < k ==> !SameCompared(history[k - 1], history[k])
    ensures forall j | k < j < |history| :: SameCompared(history[j - 1], history[j])
  {
    var last := |history| - 1;
    if last == startedAt - 1 || !SameCompared(history[last - 1], history[last]) then last
    else Deciding(history[..last], startedAt)
  }

  /** What was decided: the rule at the start differs from the later one. */
  predicate Decision(history: seq<Config>, startedAt: nat, withoutFeedback: bool)
    requires 1 <= startedAt <= |history|
  {
    var k := Deciding(history, startedAt);
    if k == startedAt - 1 then Asks(history[k], !withoutFeedback) else Asks(history[k], true)
  }

  /** A sending stream is registered as was decided. */
  ghost predicate Decided(st: Stream) {
    st.sending ==>
      && 1 <= st.startedAt <= |st.history|
      && st.registered == st.rtp.partOfAllocation == Decision(st.history, st.startedAt, st.settings.withoutFeedback)
  }

  lemma DecisionAfter(history: seq<Config>, startedAt: nat, withoutFeedback: bool, c: Config)
    requires 1 <= startedAt <= |history|
    ensures Decision(history + [c], startedAt, withoutFeedback) ==
            if SameCompared(history[|history| - 1], c) then Decision(history, startedAt, withoutFeedback)
            else Asks(c, true)
  {
    assert (history + [c])[..|history|] == history;
  }

  lemma ConfigureDecided(sc: Scene, c: Config, env: Env)
    requires Decided(sc.stream) && Configure(sc, c, false, env).Some?
    requires sc.stream.history != [] && sc.stream.config == sc.stream.history[|sc.stream.history| - 1]
    ensures Decided(Configure(sc, c, false, env).value.stream)
  {
    var extended := ConfigureExtensions(ConfigureChannel(sc.stream, c, false), c, false);
    var coded := ConfigureCodec(sc.(stream := extended.value), c, env.created, env.reply);
    OverheadKeepsRegistration(coded, env.rtpOverhead, env.granted);
    FinishDecided(UpdateOverhead(coded, env.rtpOverhead, env.granted).value, c, env);
  }

  lemma FinishDecided(sc: Scene, c: Config, env: Env)
    requires Decided(sc.stream) && FinishConfigure(sc, c, env).Some?
    requires sc.stream.history != [] && sc.stream.config == sc.stream.history[|sc.stream.history| - 1]
    ensures Decided(FinishConfigure(sc, c, env).value.stream)
  {
    FinishRegistration(sc, c, env);
    if sc.stream.sending {
      DecisionAfter(sc.stream.history, sc.stream.startedAt, sc.stream.settings.withoutFeedback, c);
    }
  }

  /** What the end of a configuration does to the registration. */
  lemma FinishRegistration(sc: Scene, c: Config, env: Env)
    requires FinishConfigure(sc, c, env).Some?
    ensures var was, st := sc.stream, FinishConfigure(sc, c, env).value.stream;
            && st.sending == was.sending && st.settings == was.settings && st.startedAt == was.startedAt
            && st.history == was.history + [c]
            && (if was.sending && !SameCompared(was.config, c)
                then st.registered == st.rtp.partOfAllocation == Asks(c, true)
                else st.registered == was.registered && st.rtp.partOfAllocation == was.rtp.partOfAllocation)
  {
  }

  lemma StartDecided(sc: Scene, env: Env)
    requires Decided(sc.stream) && Start(sc, env).Some? && (sc.stream.registered ==> sc.stream.sending)
    requires sc.stream.history != [] && sc.stream.config == sc.stream.history[|sc.stream.history| - 1]
    ensures Decided(Start(sc, env).value.stream)
  {
  }

  lemma {:induction false} UnchangedSince(history: seq<Config>, k: nat, n: nat)
    requires k <= n < |history| && forall j | k < j < |history| :: SameCompared(history[j - 1], history[j])
    ensures SameCompared(history[k], history[n])
  {
    if k < n {
      UnchangedSince(history, k, n - 1);
      assert SameCompared(history[n - 1], history[n]);
    }
  }

  /** When what was decided is still what the current configuration asks for:
      the deciding one has the same DSCP mark, where limits and feedback leave it
      to the mark, and was not a start that registered without feedback. */
  predicate StillAsked(history: seq<Config>, startedAt: nat, withoutFeedback: bool)
    requires 1 <= startedAt <= |history|
  {
    var k, c := Deciding(history, startedAt), history[|history| - 1];
    HasBoth(c) ==>
      if c.ids.transportSequenceNumber != 0 then history[k].hasDscp == c.hasDscp
      else !(k == startedAt - 1 && withoutFeedback && !history[k].hasDscp)
  }

  lemma RegularExactly(st: Stream)
    requires Decided(st) && st.sending && st.config == st.history[|st.history| - 1]
    ensures Regular(st) <==> StillAsked(st.history, st.startedAt, st.settings.withoutFeedback)
  {
    UnchangedSince(st.history, Deciding(st.history, st.startedAt), |st.history| - 1);
  }

  /** All configurations so far agree about the DSCP mark. */
  ghost predicate SameDscp(history: seq<Config>) {
    forall c, d | c in history && d in history :: c.hasDscp == d.hasDscp
  }

  /** In particular, where feedback is required and the mark never changes. */
  lemma SteadyStillAsked(history: seq<Config>, startedAt: nat)
    requires 1 <= startedAt <= |history| && SameDscp(history)
    ensures StillAsked(history, startedAt, false)
  {
    assert history[Deciding(history, startedAt)] in history && history[|history| - 1] in history;
  }

  // ------------------------------------------------------- the allocator's limits

  /** The stream with the ranges that were known at its registration. */
  function AsRegistered(st: Stream): Stream {
    st.(frameLengths := st.registeredWith.frameLengths, bitrateRange := st.registeredWith.bitrateRange)
  }

  /** The allocator holds the allocation that follows from those. */
  ghost predicate Follows(sc: Scene) {
    sc.stream.registered ==>
      && sc.stream.id in sc.allocator
      && LimitsWith(sc.stream, sc.stream.registeredWith).Some?
      && sc.allocator[sc.stream.id] == AllocationFor(AsRegistered(sc.stream))
  }

  lemma ObserverFollows(sc: Scene, granted: int)
    requires ConfigureObserver(sc, granted).Some?
    ensures Follows(ConfigureObserver(sc, granted).value)
  {
  }

  lemma OverheadFollows(sc: Scene, rtpOverhead: nat, granted: int)
    requires Follows(sc) && UpdateOverhead(sc, rtpOverhead, granted).Some?
    ensures Follows(UpdateOverhead(sc, rtpOverhead, granted).value)
  {
    if sc.stream.registered {
      var total := sc.stream.transportOverhead + rtpOverhead;
      if sc.stream.overhead != total {
        ObserverFollows(sc.(stream := sc.stream.(overhead := total)), granted);
      }
    }
  }

  lemma FinishFollows(sc: Scene, c: Config, env: Env)
    requires Follows(sc) && (sc.stream.registered ==> sc.stream.sending) && FinishConfigure(sc, c, env).Some?
    ensures Follows(FinishConfigure(sc, c, env).value)
  {
    var ranged := sc.(stream := ReadRanges(sc.stream, env));
    if sc.stream.sending && !ObserverUnchanged(sc.stream.config, c) && Allocatable(c) {
      ObserverFollows(ranged.(stream := WithLimits(ranged.stream, c)), env.regranted);
    }
  }

  lemma ConfigureFollows(sc: Scene, c: Config, first: bool, env: Env)
    requires Follows(sc) && (sc.stream.registered ==> sc.stream.sending) && Configure(sc, c, first, env).Some?
    ensures Follows(Configure(sc, c, first, env).value)
  {
    var extended := ConfigureExtensions(ConfigureChannel(sc.stream, c, first), c, first);
    var coded := ConfigureCodec(sc.(stream := extended.value), c, env.created, env.reply);
    assert Follows(coded);
    OverheadFollows(coded, env.rtpOverhead, env.granted);
    OverheadKeepsRegistration(coded, env.rtpOverhead, env.granted);
    FinishFollows(UpdateOverhead(coded, env.rtpOverhead, env.granted).value, c, env);
  }

  lemma StartFollows(sc: Scene, env: Env)
    requires Follows(sc) && (sc.stream.registered ==> sc.stream.sending) && Start(sc, env).Some?
    ensures Follows(Start(sc, env).value)
  {
    if !sc.stream.sending && AllocatableAtStart(sc.stream.config, sc.stream.settings.withoutFeedback) {
      ObserverFollows(SetPartOfAllocation(sc, true), env.granted);
    }
  }
}
