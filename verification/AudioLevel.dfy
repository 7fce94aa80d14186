/** The speech level meter: a peak per window of eleven frames, decayed by four
    at every update, and the energy accumulated from it. */
module AudioLevel {
  import opened Common

  const UPDATE_FREQUENCY := 10
  
  const INT16_MAX := 32767

  type Sample = x: int | -32768 <= x <= 32767 witness 0

  type Peak = x: int | 0 <= x <= 32767 witness 0

  datatype AudioFrame = AudioFrame(muted: bool, samples: seq<Sample>)

  // ---------------------------------------------------------- peak of a frame

  function Abs(x: int): (r: int)
    ensures 0 <= r && (r == x || r == -x)
  {
    if x < 0 then -x else x
  }

  ghost predicate IsMagnitude(sample: int, m: int) {
    m == sample || m == -sample || (sample == -32768 && m == 32767)
  }

  /** The largest magnitude of a sample, where -32768 counts as 32767. */
  ghost predicate IsFramePeak(frame: AudioFrame, peak: int) {
    if frame.muted then peak == 0
    else
      && peak <= 32767
      && (forall i | 0 <= i < |frame.samples| :: frame.samples[i] <= peak)
      && (forall i | 0 <= i < |frame.samples| && -32767 <= frame.samples[i] :: -frame.samples[i] <= peak)
      && (forall i | 0 <= i < |frame.samples| && frame.samples[i] == -32768 :: peak == 32767)
      && (peak == 0 || exists i :: 0 <= i < |frame.samples| && IsMagnitude(frame.samples[i], peak))
  }

  method MaxAbsValue(vector: seq<Sample>) returns (maximum: Peak)
    ensures IsFramePeak(AudioFrame(false, vector), maximum)
  {
    var largest := 0;
    for i := 0 to |vector|
      invariant 0 <= largest <= 32768
      invariant forall j | 0 <= j < i :: Abs(vector[j]) <= largest
      invariant largest == 0 || exists j :: 0 <= j < i && largest == Abs(vector[j])
    {
      var absolute := Abs(vector[i]);
      if absolute > largest {
        largest := absolute;
      }
    }
    if largest > 32767 {
      return 32767;
    }
    maximum := largest;
  }

  // ------------------------------------------------------------------- state

  datatype Gauge = Gauge(absMax: int, count: int, level: int)

  datatype Meter = Meter(gauge: Gauge, energy: real, duration: real)

  const ZERO := Gauge(0, 0, 0)

  function Advance(g: Gauge, peak: int): Gauge {
    var top := Max(g.absMax, peak);
    if g.count == UPDATE_FREQUENCY then Gauge(top / 4, 0, top) else Gauge(top, g.count + 1, g.level)
  }

  function Energy(level: int): real {
    (level as real / INT16_MAX as real) * (level as real / INT16_MAX as real)
  }

  function Charge(level: int, duration: real): real {
    Energy(level) * duration
  }

  /** One frame: the level is updated first, and then charged to the energy. */
  function Compute(m: Meter, peak: int, duration: real, charge: (int, real) -> real): Meter {
    var gauge := Advance(m.gauge, peak);
    Meter(gauge, m.energy + charge(gauge.level, duration), m.duration + duration)
  }

  method EnergyOver(level: int, duration: real) returns (energy: real)
    ensures energy == Charge(level, duration)
    ensures 32767.0 * 32767.0 * energy == (level * level) as real * duration
  {
    ChargeIs(level, duration);
    energy := level as real / INT16_MAX as real;
    energy := energy * energy;
    energy := energy * duration;
  }

  class AudioLevel {
    var absMax: int
    var count: int
    var currentLevelFullRange: int
    var totalEnergy: real
    var totalDuration: real

    ghost function View(): Meter
      reads this
    {
      Meter(Gauge(absMax, count, currentLevelFullRange), totalEnergy, totalDuration)
    }

    constructor ()
      ensures View() == Meter(ZERO, 0.0, 0.0)
    {
      absMax, count, currentLevelFullRange := 0, 0, 0;
      totalEnergy, totalDuration := 0.0, 0.0;
    }

    method Reset()
      modifies this
      ensures View() == Meter(ZERO, 0.0, 0.0)
    {
      absMax := 0;
      count := 0;
      currentLevelFullRange := 0;
      totalEnergy := 0.0;
      totalDuration := 0.0;
    }

    method ResetLevelFullRange()
      modifies this
      ensures View() == Meter(ZERO, old(totalEnergy), old(totalDuration))
    {
      absMax := 0;
      count := 0;
      currentLevelFullRange := 0;
    }

    method ComputeLevel(frame: AudioFrame, duration: real)
      modifies this
      ensures exists peak: Peak :: IsFramePeak(frame, peak) && View() == Compute(old(View()), peak, duration, Charge)
    {
      var absValue: Peak := 0;
      if !frame.muted {
        absValue := MaxAbsValue(frame.samples);
      }
      if absValue > absMax {
        absMax := absValue;
      }
      var updates := count == UPDATE_FREQUENCY;
      count := count + 1;
      if updates {
        currentLevelFullRange := absMax;
        count := 0;
        absMax := absMax / 4;
      }
      var additionalEnergy := EnergyOver(currentLevelFullRange, duration);
      totalEnergy := totalEnergy + additionalEnergy;
      totalDuration := totalDuration + duration;
      assert IsFramePeak(frame, absValue);
      assert View() == Compute(old(View()), absValue, duration, Charge);
    }
  }

  // ------------------------------------------------- closed form of the level

  /** The meter's level fields after frames with these peaks since a reset. */
  function Metered(peaks: seq<Peak>): Gauge {
    if peaks == [] then ZERO else Advance(Metered(peaks[..|peaks| - 1]), peaks[|peaks| - 1])
  }

  function MaxOf(peaks: seq<Peak>): (r: Peak)
    ensures forall p | p in peaks :: p <= r
    ensures r == 0 || r in peaks
  {
    if peaks == [] then 0
    else
      var m, last := MaxOf(peaks[..|peaks| - 1]), peaks[|peaks| - 1];
      assert peaks == peaks[..|peaks| - 1] + [last];
      if m < last then last else m
  }

  function WindowPeak(peaks: seq<Peak>, j: nat): Peak
    requires 11 * (j + 1) <= |peaks|
  {
    MaxOf(peaks[11 * j..11 * (j + 1)])
  }

  function Pow4(n: nat): (r: nat)
    ensures 1 <= r
  {
    if n == 0 then 1 else 4 * Pow4(n - 1)
  }

  /** What is left, at the m-th update, of the peak of window j. */
  function Decayed(peaks: seq<Peak>, m: nat, j: nat): int
    requires j < m && 11 * m <= |peaks|
  {
    WindowPeak(peaks, j) / Pow4(m - 1 - j)
  }

  /** The largest decayed window peak at the m-th update. */
  ghost predicate IsLevel(level: int, peaks: seq<Peak>, m: nat)
    requires 11 * m <= |peaks|
  {
    && (forall j: nat | j < m :: Decayed(peaks, m, j) <= level)
    && (if m == 0 then level == 0 else exists j: nat :: j < m && level == Decayed(peaks, m, j))
  }

  lemma DivDiv(x: nat, p: nat)
    requires 1 <= p
    ensures x / (4 * p) == x / p / 4
  {
    var q, r := x / p, x % p;
    var s, t := q / 4, q % 4;
    assert x == p * q + r;
    assert p * q == p * (4 * s + t) == (4 * p) * s + p * t;
    assert p * t <= p * 3;
    DivUnique(x, 4 * p, s, p * t + r);
  }

  lemma DivUnique(x: int, d: nat, q: int, r: int)
    requires 1 <= d && x == d * q + r && 0 <= r < d
    ensures x / d == q
  {
    var q', r' := x / d, x % d;
    assert x == d * q' + r';
    assert d * (q - q') == r' - r;
    if q' < q { MulAtLeast(d, q - q'); }
    if q < q' { MulAtLeast(d, q' - q); }
  }

  lemma WindowsOfPrefix(peaks: seq<Peak>, n: nat, m: nat)
    requires 11 * m <= n <= |peaks|
    ensures forall j: nat | j < m :: Decayed(peaks[..n], m, j) == Decayed(peaks, m, j)
  {
    forall j: nat | j < m ensures Decayed(peaks[..n], m, j) == Decayed(peaks, m, j) {
      assert peaks[..n][11 * j..11 * (j + 1)] == peaks[11 * j..11 * (j + 1)];
    }
  }

  lemma DecayStep(peaks: seq<Peak>, m: nat, j: nat)
    requires j < m && 11 * (m + 1) <= |peaks|
    ensures Decayed(peaks, m + 1, j) == Decayed(peaks, m, j) / 4
  {
    DivDiv(WindowPeak(peaks, j), Pow4(m - 1 - j));
  }

  /** The update that closes window m turns the decayed maximum into the next. */
  lemma LevelStep(level: int, peaks: seq<Peak>, m: nat, next: int)
    requires 11 * (m + 1) <= |peaks| && IsLevel(level, peaks, m)
    requires next == Max(level / 4, WindowPeak(peaks, m))
    ensures IsLevel(next, peaks, m + 1)
  {
    var n := m + 1;
    assert Decayed(peaks, n, m) == WindowPeak(peaks, m) by { assert Pow4(0) == 1; }
    forall j: nat | j < n ensures Decayed(peaks, n, j) <= next {
      if j < m { DecayStep(peaks, m, j); }
    }
    if next != WindowPeak(peaks, m) && m != 0 {
      var j: nat :| j < m && level == Decayed(peaks, m, j);
      DecayStep(peaks, m, j);
      assert next == Decayed(peaks, n, j);
    }
  }

  /** The gauge after m complete windows and c further frames. */
  ghost predicate Closed(g: Gauge, peaks: seq<Peak>, m: nat, c: nat)
    requires |peaks| == 11 * m + c
  {
    && IsLevel(g.level, peaks, m)
    && g.count == c
    && g.absMax == Max(g.level / 4, MaxOf(peaks[11 * m..]))
  }

  lemma TopOfWindow(peaks: seq<Peak>, m: nat, before: Gauge)
    requires 11 * m < |peaks|
    requires IsLevel(before.level, peaks[..|peaks| - 1], m)
    requires before.absMax == Max(before.level / 4, MaxOf(peaks[..|peaks| - 1][11 * m..]))
    ensures IsLevel(before.level, peaks, m)
    ensures Max(before.absMax, peaks[|peaks| - 1]) == Max(before.level / 4, MaxOf(peaks[11 * m..]))
  {
    LevelOfPrefix(before.level, peaks, |peaks| - 1, m);
    TopAfter(peaks, 11 * m);
  }

  lemma LevelOfPrefix(level: int, peaks: seq<Peak>, n: nat, m: nat)
    requires 11 * m <= n <= |peaks| && IsLevel(level, peaks[..n], m)
    ensures IsLevel(level, peaks, m)
  {
    WindowsOfPrefix(peaks, n, m);
    if m != 0 {
      var j: nat :| j < m && level == Decayed(peaks[..n], m, j);
      assert level == Decayed(peaks, m, j);
    }
  }

  lemma TopAfter(peaks: seq<Peak>, k: nat)
    requires k < |peaks|
    ensures MaxOf(peaks[k..]) == Max(MaxOf(peaks[..|peaks| - 1][k..]), peaks[|peaks| - 1])
  {
    var tail := peaks[k..];
    assert tail[..|tail| - 1] == peaks[..|peaks| - 1][k..];
    MaxOfLonger(tail);
  }

  lemma MaxOfLonger(peaks: seq<Peak>)
    requires peaks != []
    ensures MaxOf(peaks) == Max(MaxOf(peaks[..|peaks| - 1]), peaks[|peaks| - 1])
  {
  }

  lemma InsideWindow(peaks: seq<Peak>, m: nat, c: nat)
    requires 0 < c < 11 && |peaks| == 11 * m + c
    requires Closed(Metered(peaks[..|peaks| - 1]), peaks[..|peaks| - 1], m, c - 1)
    ensures Closed(Metered(peaks), peaks, m, c)
  {
    TopOfWindow(peaks, m, Metered(peaks[..|peaks| - 1]));
  }

  lemma CloseWindow(peaks: seq<Peak>, m: nat)
    requires 0 < m && |peaks| == 11 * m
    requires Closed(Metered(peaks[..|peaks| - 1]), peaks[..|peaks| - 1], m - 1, 10)
    ensures Closed(Metered(peaks), peaks, m, 0)
  {
    var before, k := Metered(peaks[..|peaks| - 1]), m - 1;
    TopOfWindow(peaks, k, before);
    assert peaks[11 * k..] == peaks[11 * k..11 * (k + 1)];
    LevelStep(before.level, peaks, k, Metered(peaks).level);
    assert peaks[11 * m..] == [];
  }

  lemma NoWindow()
    ensures Closed(Metered([]), [], 0, 0)
  {
  }

  /** After m complete windows the level is the largest window peak, each
      divided by four once for every later update. */
  lemma {:induction false} LevelClosedForm(peaks: seq<Peak>, m: nat, c: nat)
    requires |peaks| == 11 * m + c && c < 11
    ensures Closed(Metered(peaks), peaks, m, c)
    decreases |peaks|
  {
    if c != 0 {
      LevelClosedForm(peaks[..|peaks| - 1], m, c - 1);
      InsideWindow(peaks, m, c);
    } else if m != 0 {
      LevelClosedForm(peaks[..|peaks| - 1], m - 1, 10);
      CloseWindow(peaks, m);
    } else {
      NoWindow();
      assert peaks == [];
    }
  }

  /** The level is a 16-bit magnitude, and it is zero exactly when every window
      peak has been outlived by enough updates. */
  lemma LevelRange(peaks: seq<Peak>, m: nat)
    requires 11 * m <= |peaks| < 11 * (m + 1)
    ensures 0 <= Metered(peaks).level <= 32767
    ensures Metered(peaks).level == 0 <==> forall j: nat | j < m :: WindowPeak(peaks, j) < Pow4(m - 1 - j)
  {
    LevelClosedForm(peaks, m, |peaks| - 11 * m);
    forall j: nat | j < m
      ensures 0 <= Decayed(peaks, m, j) <= 32767
      ensures Decayed(peaks, m, j) == 0 <==> WindowPeak(peaks, j) < Pow4(m - 1 - j)
    {
      QuotientRange(WindowPeak(peaks, j), Pow4(m - 1 - j));
    }
  }

  lemma QuotientRange(x: nat, p: nat)
    requires 1 <= p
    ensures 0 <= x / p <= x
    ensures x / p == 0 <==> x < p
  {
  }

  lemma {:induction false} Pow4Grows(k: nat, n: nat)
    requires k <= n
    ensures Pow4(k) <= Pow4(n)
  {
    if k < n { Pow4Grows(k, n - 1); }
  }

  /** Eight updates after the window of the last non-silent frame the level is
      zero; after seven it need not be. */
  lemma SilentAfterEightUpdates(peaks: seq<Peak>, last: nat)
    requires forall i | 11 * (last + 1) <= i < |peaks| :: peaks[i] == 0
    requires 11 * (last + 1 + 8) <= |peaks|
    ensures Metered(peaks).level == 0
  {
    var m := |peaks| / 11;
    LevelRange(peaks, m);
    assert Pow4(8) == 65536;
    forall j: nat | j < m ensures WindowPeak(peaks, j) < Pow4(m - 1 - j) {
      if j <= last {
        Pow4Grows(8, m - 1 - j);
      } else {
        var window := peaks[11 * j..11 * (j + 1)];
        assert forall p | p in window :: p == 0;
      }
    }
  }

  lemma AudibleAfterSevenUpdates(peaks: seq<Peak>, last: nat)
    requires 11 * (last + 1 + 7) <= |peaks| < 11 * (last + 1 + 8)
    requires WindowPeak(peaks, last) >= 16384
    ensures Metered(peaks).level > 0
  {
    LevelRange(peaks, last + 8);
    assert Pow4(7) == 16384;
  }

  // ----------------------------------------------------------------- energy

  datatype Event = Frame(peak: Peak, duration: real) | ResetLevel | ResetAll

  function Execute(events: seq<Event>, charge: (int, real) -> real): Meter {
    if events == [] then Meter(ZERO, 0.0, 0.0)
    else
      var m := Execute(events[..|events| - 1], charge);
      match events[|events| - 1]
      case Frame(peak, duration) => Compute(m, peak, duration, charge)
      case ResetLevel => m.(gauge := ZERO)
      case ResetAll => Meter(ZERO, 0.0, 0.0)
  }

  /** The frame peaks since the last reset of either kind. */
  function PeaksSince(events: seq<Event>): seq<Peak> {
    if events == [] || !events[|events| - 1].Frame? then []
    else PeaksSince(events[..|events| - 1]) + [events[|events| - 1].peak]
  }

  /** Where the accumulation began: just after the last full reset. */
  function AfterReset(events: seq<Event>): (i: nat)
    ensures i <= |events|
  {
    if events == [] then 0
    else if events[|events| - 1].ResetAll? then |events|
    else AfterReset(events[..|events| - 1])
  }

  /** The sum, over the frames from event `from` on, of a charge for the level that
      the frames since their own last reset had produced and for the duration. */
  function FrameSum(events: seq<Event>, from: nat, charge: (int, real) -> real): real
    requires from <= |events|
  {
    if |events| == from then 0.0
    else
      var prefix, last := events[..|events| - 1], events[|events| - 1];
      FrameSum(prefix, from, charge) +
      if last.Frame? then charge(Metered(PeaksSince(events)).level, last.duration) else 0.0
  }

  function DurationSum(events: seq<Event>, from: nat): real
    requires from <= |events|
  {
    if |events| == from then 0.0
    else
      var prefix, last := events[..|events| - 1], events[|events| - 1];
      DurationSum(prefix, from) + if last.Frame? then last.duration else 0.0
  }

  lemma {:induction false} ExecuteGauge(events: seq<Event>, charge: (int, real) -> real)
    ensures Execute(events, charge).gauge == Metered(PeaksSince(events))
  {
    if events != [] {
      var prefix, last := events[..|events| - 1], events[|events| - 1];
      ExecuteGauge(prefix, charge);
      if last.Frame? {
        var peaks := PeaksSince(prefix);
        assert (peaks + [last.peak])[..|peaks|] == peaks;
      }
    }
  }

  /** A run's meter is the closed form of the frames since the last reset, with
      the totals of everything since the last full reset. */
  lemma {:induction false} ExecuteExact(events: seq<Event>, charge: (int, real) -> real)
    ensures Execute(events, charge) ==
            Meter(Metered(PeaksSince(events)),
                  FrameSum(events, AfterReset(events), charge),
                  DurationSum(events, AfterReset(events)))
  {
    if events != [] {
      var prefix, last := events[..|events| - 1], events[|events| - 1];
      ExecuteExact(prefix, charge);
      ExecuteGauge(events, charge);
    }
  }

  /** The charge is the squared level over the squared full range, times the
      duration. */
  lemma ChargeIs(level: int, duration: real)
    ensures 32767.0 * 32767.0 * Charge(level, duration) == (level * level) as real * duration
  {
    var x := level as real / 32767.0;
    assert 32767.0 * x == level as real;
    SquareIs(32767.0, x);
    Regroup(32767.0 * 32767.0, x * x, duration);
    assert (level as real) * (level as real) == (level * level) as real;
  }

  lemma SquareIs(a: real, x: real)
    ensures a * a * (x * x) == (a * x) * (a * x)
  {
  }

  lemma Regroup(a: real, e: real, d: real)
    ensures a * (e * d) == (a * e) * d
  {
  }

  /** The square of the level, times the duration. */
  function Weight(level: int, duration: real): real { (level * level) as real * duration }

  function Scaled(energy: real): real { 32767.0 * 32767.0 * energy }

  /** An additive scale may be applied to every charge instead of to the sum. */
  lemma {:induction false} SumScales(events: seq<Event>, from: nat, scale: real -> real,
                                     charge: (int, real) -> real, weight: (int, real) -> real)
    requires from <= |events|
    requires scale(0.0) == 0.0 && forall x, y :: scale(x + y) == scale(x) + scale(y)
    requires forall level, d :: scale(charge(level, d)) == weight(level, d)
    ensures scale(FrameSum(events, from, charge)) == FrameSum(events, from, weight)
  {
    if |events| != from {
      SumScales(events[..|events| - 1], from, scale, charge, weight);
    }
  }

  /** The total energy of a run, times the squared full range, is the sum of the
      squared levels times the durations since the last full reset. */
  lemma EnergyExactly(events: seq<Event>)
    ensures 32767.0 * 32767.0 * Execute(events, Charge).energy == FrameSum(events, AfterReset(events), Weight)
    ensures Execute(events, Charge).duration == DurationSum(events, AfterReset(events))
  {
    ExecuteExact(events, Charge);
    forall level, d ensures Scaled(Charge(level, d)) == Weight(level, d) { ChargeIs(level, d); }
    SumScales(events, AfterReset(events), Scaled, Charge, Weight);
  }

  lemma ChargeAtMostDuration(level: int, duration: real)
    requires 0 <= level <= 32767 && 0.0 <= duration
    ensures 0.0 <= Charge(level, duration) <= duration
  {
    var x := level as real / 32767.0;
    assert 0.0 <= x <= 1.0;
    ProductBelow(x, x);
    ProductBelow(Energy(level), duration);
  }

  lemma ProductBelow(x: real, y: real)
    requires 0.0 <= x <= 1.0 && 0.0 <= y
    ensures 0.0 <= x * y <= y
  {
  }

  ghost predicate NonNegative(events: seq<Event>) {
    forall e | e in events :: e.Frame? ==> 0.0 <= e.duration
  }

  /** A charge that a full-range level does not push beyond the duration. */
  ghost predicate AtMostDuration(charge: (int, real) -> real) {
    forall level, d :: 0 <= level <= 32767 && 0.0 <= d ==> 0.0 <= charge(level, d) <= d
  }

  /** What a run owes to the step that ends it. */
  ghost predicate Monotone(before: Meter, last: Event, after: Meter) {
    && 0.0 <= after.energy <= after.duration
    && (!last.ResetAll? ==> before.energy <= after.energy && before.duration <= after.duration)
    && (last.ResetLevel? ==> before.energy == after.energy && before.duration == after.duration)
  }

  lemma {:induction false} TotalsMonotone(events: seq<Event>, charge: (int, real) -> real)
    requires NonNegative(events) && AtMostDuration(charge)
    ensures 0.0 <= Execute(events, charge).energy <= Execute(events, charge).duration
    ensures events != [] ==>
              Monotone(Execute(events[..|events| - 1], charge), events[|events| - 1], Execute(events, charge))
  {
    if events != [] {
      var prefix, last := events[..|events| - 1], events[|events| - 1];
      assert forall e | e in prefix :: e in events;
      assert last in events;
      TotalsMonotone(prefix, charge);
      ExecuteGauge(events, charge);
      LevelRange(PeaksSince(events), |PeaksSince(events)| / 11);
    }
  }

  /** Every step short of a full reset keeps or raises both totals, a level
      reset keeps them, and the energy never exceeds the duration. */
  lemma EnergyBounds(events: seq<Event>)
    requires NonNegative(events)
    ensures 0.0 <= Execute(events, Charge).energy <= Execute(events, Charge).duration
    ensures events != [] ==>
              Monotone(Execute(events[..|events| - 1], Charge), events[|events| - 1], Execute(events, Charge))
  {
    forall level, d | 0 <= level <= 32767 && 0.0 <= d ensures 0.0 <= Charge(level, d) <= d {
      ChargeAtMostDuration(level, d);
    }
    TotalsMonotone(events, Charge);
  }
}
