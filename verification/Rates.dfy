/** Sampled peak rates: processor concurrency and device throughput. */
module Rates {

  import opened Outcomes

  const U64_MAX: nat := 0xFFFF_FFFF_FFFF_FFFF
  const NANOS_PER_SECOND: nat := 1_000_000_000

  type Word = n: nat | n <= U64_MAX

  function Max(a: nat, b: nat): nat {
    if a < b then b else a
  }

  function Min(a: nat, b: nat): nat {
    if a < b then a else b
  }

  // ---------------------------------------------------------------- whole-number rates

  lemma Scale(a: nat, b: nat, factor: nat)
    requires a <= b
    ensures a * factor <= b * factor
  {
  }

  /** Division rounded up, by repeated subtraction. */
  function CeilDiv(dividend: nat, divisor: nat): nat
    requires divisor > 0
  {
    if dividend == 0 then 0 else if dividend <= divisor then 1 else 1 + CeilDiv(dividend - divisor, divisor)
  }

  /** The usual closed form, which the sampler computes. */
  lemma {:induction false} CeilDivFormula(dividend: nat, divisor: nat)
    requires divisor > 0
    ensures CeilDiv(dividend, divisor) == (dividend + divisor - 1) / divisor
  {
    if dividend > divisor {
      CeilDivFormula(dividend - divisor, divisor);
      AddDivisor(dividend - 1, divisor);
    } else if dividend > 0 {
      AddDivisor(dividend - 1, divisor);
    }
  }

  lemma AddDivisor(n: nat, divisor: nat)
    requires divisor > 0
    ensures (n + divisor) / divisor == n / divisor + 1
    ensures n < divisor ==> n / divisor == 0
  {
    var quotient, remainder := n / divisor, n % divisor;
    assert n == quotient * divisor + remainder;
    assert (quotient + 1) * divisor == quotient * divisor + divisor;
    QuotientUnique(n + divisor, divisor, quotient + 1, remainder);
    if n < divisor {
      assert 0 == 0 * divisor;
      QuotientUnique(n, divisor, 0, n);
    }
  }

  lemma QuotientUnique(n: nat, divisor: nat, quotient: nat, remainder: nat)
    requires n == quotient * divisor + remainder && remainder < divisor
    ensures n / divisor == quotient
  {
    var other := n / divisor;
    assert n == other * divisor + n % divisor;
    assert (other + 1) * divisor == other * divisor + divisor;
    assert (quotient + 1) * divisor == quotient * divisor + divisor;
    if other < quotient {
      Scale(other + 1, quotient, divisor);
    } else if quotient < other {
      Scale(quotient + 1, other, divisor);
    }
  }

  lemma CeilDivByOne(dividend: nat)
    ensures CeilDiv(dividend, 1) == dividend
  {
    CeilDivFormula(dividend, 1);
  }

  /** It is the least whole rate that covers the dividend. */
  lemma {:induction false} CeilDivLeast(dividend: nat, divisor: nat, rate: nat)
    requires divisor > 0
    ensures CeilDiv(dividend, divisor) <= rate <==> dividend <= rate * divisor
  {
    if rate > 0 {
      assert rate * divisor == (rate - 1) * divisor + divisor;
      assert (rate - 1) * divisor >= 0;
      if dividend > divisor {
        CeilDivLeast(dividend - divisor, divisor, rate - 1);
      }
    }
  }

  /** What one counter did between two readings. */
  datatype Interval = Interval(elapsed: nat, growth: nat)

  /** The interval grew by no more than `rate` per clock unit, unless its clock stood still. */
  predicate Within(interval: Interval, scale: nat, rate: nat) {
    interval.elapsed > 0 ==> interval.growth * scale <= rate * interval.elapsed
  }

  ghost predicate Bounds(history: seq<Interval>, scale: nat, rate: nat) {
    forall i :: 0 <= i < |history| ==> Within(history[i], scale, rate)
  }

  ghost function TotalElapsed(history: seq<Interval>): nat {
    if history == [] then 0 else TotalElapsed(history[..|history| - 1]) + history[|history| - 1].elapsed
  }

  ghost function TotalGrowth(history: seq<Interval>): nat {
    if history == [] then 0 else TotalGrowth(history[..|history| - 1]) + history[|history| - 1].growth
  }

  /** Growth that arrived while the clock stood still, which no rate accounts for. */
  ghost function Unrated(history: seq<Interval>): nat {
    if history == [] then 0
    else
      var last := history[|history| - 1];
      Unrated(history[..|history| - 1]) + if last.elapsed == 0 then last.growth else 0
  }

  /** The highest rounded-up rate of any interval. */
  ghost function PeakRate(history: seq<Interval>, scale: nat): nat {
    if history == [] then 0
    else
      var last := history[|history| - 1];
      Max(PeakRate(history[..|history| - 1], scale), IntervalRate(last, scale))
  }

  function IntervalRate(interval: Interval, scale: nat): nat {
    if interval.elapsed == 0 then 0 else CeilDiv(interval.growth * scale, interval.elapsed)
  }

  /** The peak is the least whole rate that bounds every interval. */
  lemma {:induction false} PeakIsLeastBound(history: seq<Interval>, scale: nat, rate: nat)
    ensures PeakRate(history, scale) <= rate <==> Bounds(history, scale, rate)
  {
    if history != [] {
      var earlier, last := history[..|history| - 1], history[|history| - 1];
      assert history == earlier + [last];
      PeakIsLeastBound(earlier, scale, rate);
      if last.elapsed > 0 {
        CeilDivLeast(last.growth * scale, last.elapsed, rate);
      }
      assert Bounds(history, scale, rate) <==> Bounds(earlier, scale, rate) && Within(last, scale, rate);
    }
  }

  lemma Distribute(rate: nat, a: nat, b: nat)
    ensures (a + b) * rate == a * rate + b * rate
    ensures rate * (a + b) == rate * a + rate * b
  {
  }

  /** Total growth is at most the peak times the elapsed time, apart from growth that arrived while
      the clock stood still. */
  lemma {:induction false} PeakBoundsTotal(history: seq<Interval>, scale: nat)
    ensures TotalGrowth(history) * scale
            <= PeakRate(history, scale) * TotalElapsed(history) + Unrated(history) * scale
  {
    PeakIsLeastBound(history, scale, PeakRate(history, scale));
    BoundsTotal(history, scale, PeakRate(history, scale));
  }

  lemma {:induction false} BoundsTotal(history: seq<Interval>, scale: nat, rate: nat)
    requires Bounds(history, scale, rate)
    ensures TotalGrowth(history) * scale <= rate * TotalElapsed(history) + Unrated(history) * scale
  {
    if history != [] {
      var earlier, last := history[..|history| - 1], history[|history| - 1];
      BoundsTotal(earlier, scale, rate);
      Distribute(scale, TotalGrowth(earlier), last.growth);
      Distribute(rate, TotalElapsed(earlier), last.elapsed);
      Distribute(scale, Unrated(earlier), if last.elapsed == 0 then last.growth else 0);
      assert Within(last, scale, rate);
      if last.elapsed == 0 {
        assert rate * last.elapsed == 0;
      }
    }
  }

  /** The plain bound, without the correction, fails: one sample while the clock stood still is enough. */
  lemma StoppedClockLosesGrowth()
    ensures var history := [Interval(0, 20)];
            PeakRate(history, 1) == 0 && TotalGrowth(history) > PeakRate(history, 1) * TotalElapsed(history)
  {
    var history := [Interval(0, 20)];
    assert history[..0] == [];
  }

  lemma Appended(history: seq<Interval>, next: Interval, scale: nat)
    ensures TotalElapsed(history + [next]) == TotalElapsed(history) + next.elapsed
    ensures TotalGrowth(history + [next]) == TotalGrowth(history) + next.growth
    ensures PeakRate(history + [next], scale) == Max(PeakRate(history, scale), IntervalRate(next, scale))
  {
    assert (history + [next])[..|history|] == history;
  }

  // ---------------------------------------------------------------- processor time

  /** The last reading of one run: its clock, its counter, and the highest rate seen. */
  datatype CpuState = CpuState(at: nat, usage: Word, peak: Word)

  ghost predicate Tracks(state: CpuState, start: CpuState, history: seq<Interval>) {
    && state.at == start.at + TotalElapsed(history)
    && state.usage == start.usage + TotalGrowth(history)
    && state.peak == PeakRate(history, 1)
  }

  /** A rate over whole microseconds never exceeds the counter, so the clamp never takes effect. */
  lemma ProcessorRateFits(growth: Word, elapsed: nat)
    requires elapsed > 0
    ensures CeilDiv(growth, elapsed) <= growth
  {
    CeilDivLeast(growth, elapsed, growth);
    Scale(1, elapsed, growth);
    assert growth * elapsed == elapsed * growth;
  }

  /** The peak after one more reading. */
  function RaisedPeak(peak: Word, growth: Word, elapsed: nat): Word {
    if elapsed > 0 then Max(peak, Min(CeilDiv(growth, elapsed), U64_MAX)) else peak
  }

  lemma RaisedPeakTracks(state: CpuState, start: CpuState, history: seq<Interval>, now: nat, usage: Word)
    requires Tracks(state, start, history) && state.at <= now && state.usage <= usage
    ensures var interval := Interval(now - state.at, usage - state.usage);
            Tracks(CpuState(now, usage, RaisedPeak(state.peak, interval.growth, interval.elapsed)), start,
                   history + [interval])
  {
    var interval := Interval(now - state.at, usage - state.usage);
    Appended(history, interval, 1);
    if interval.elapsed > 0 {
      ProcessorRateFits(interval.growth, interval.elapsed);
    }
  }

  /** The peak of the history that one more reading makes. */
  method NextPeak(state: CpuState, ghost start: CpuState, ghost history: seq<Interval>, now: nat, usage: Word)
    returns (peak: Word)
    requires Tracks(state, start, history) && state.at <= now && state.usage <= usage
    ensures Tracks(CpuState(now, usage, peak), start, history + [Interval(now - state.at, usage - state.usage)])
  {
    peak := RaisedPeak(state.peak, usage - state.usage, now - state.at);
    RaisedPeakTracks(state, start, history, now, usage);
  }

  /** The samples of one run, kept under its identifier. */
  class CpuSampler {
    var samples: map<string, CpuState>
    ghost var starts: map<string, CpuState>
    ghost var histories: map<string, seq<Interval>>

    ghost predicate Valid()
      reads this
    {
      samples.Keys == starts.Keys == histories.Keys
      && forall run :: run in samples ==> Tracks(samples[run], starts[run], histories[run])
    }

    constructor ()
      ensures Valid() && samples == map[]
    {
      samples, starts, histories := map[], map[], map[];
    }

    /** The processor part of `measurement`; the caller's microsecond clock is monotonic. */
    method Measure(run: string, now: nat, usage: Word) returns (measured: Result<Word>)
      requires Valid()
      requires run in samples ==> samples[run].at <= now
      modifies this
      ensures Valid()
      ensures measured.Err? <==> run in old(samples) && usage < old(samples[run]).usage
      ensures measured.Err? ==> samples == old(samples) && histories == old(histories) && starts == old(starts)
      ensures measured.Ok? ==> samples == old(samples)[run := CpuState(now, usage, measured.value)]
      ensures measured.Ok? && run in old(samples) ==>
                && starts == old(starts)
                && histories == old(histories)[run := old(histories[run])
                                               + [Interval(now - old(samples[run]).at,
                                                           usage - old(samples[run]).usage)]]
      ensures measured.Ok? && run !in old(samples) ==>
                && starts == old(starts)[run := CpuState(now, usage, 0)]
                && histories == old(histories)[run := []]
    {
      var peak: Word := 0;
      if run in samples {
        var previous := samples[run];
        if usage < previous.usage {
          return Err("cpu-stat-invalid");
        }
        peak := NextPeak(previous, starts[run], histories[run], now, usage);
        Keep(run, CpuState(now, usage, peak), starts[run],
             histories[run] + [Interval(now - previous.at, usage - previous.usage)]);
      } else {
        Keep(run, CpuState(now, usage, peak), CpuState(now, usage, 0), []);
      }
      return Ok(peak);
    }

    /** Store a sample that describes this history of the run. */
    method Keep(run: string, next: CpuState, ghost start: CpuState, ghost history: seq<Interval>)
      requires Valid() && Tracks(next, start, history)
      modifies this
      ensures Valid() && samples == old(samples)[run := next]
      ensures starts == old(starts)[run := start] && histories == old(histories)[run := history]
    {
      samples := samples[run := next];
      starts, histories := starts[run := start], histories[run := history];
    }
  }

  // ---------------------------------------------------------------- device throughput

  /** The four throughput controls; a request measures some of them, each for one resource. */
  datatype Control = ReadBytes | WriteBytes | ReadOperations | WriteOperations

  datatype Counters = Counters(rbytes: Word, wbytes: Word, rios: Word, wios: Word) {
    function Of(control: Control): Word {
      match control
      case ReadBytes => rbytes
      case WriteBytes => wbytes
      case ReadOperations => rios
      case WriteOperations => wios
    }
  }

  datatype IoSample = IoSample(at: nat, counters: Counters, peaks: map<string, Word>)

  /** The peak of `resource`: the highest rate of any control measured for it, clamped to 64 bits. */
  ghost function ResourcePeak(measured: map<Control, string>, history: map<Control, seq<Interval>>,
                              resource: string): nat
    requires measured.Keys <= history.Keys
  {
    Min(Max(Max(Share(measured, history, resource, ReadBytes), Share(measured, history, resource, WriteBytes)),
            Max(Share(measured, history, resource, ReadOperations),
                Share(measured, history, resource, WriteOperations))),
        U64_MAX)
  }

  ghost function Share(measured: map<Control, string>, history: map<Control, seq<Interval>>, resource: string,
                       control: Control): nat
    requires measured.Keys <= history.Keys
  {
    if control in measured && measured[control] == resource then PeakRate(history[control], NANOS_PER_SECOND) else 0
  }

  /** Below the clamp, a counter's total growth is at most its resource's peak times the elapsed
      seconds; clocks that stood still again give no bound. */
  lemma PeakBoundsTraffic(measured: map<Control, string>, history: map<Control, seq<Interval>>, control: Control)
    requires measured.Keys <= history.Keys && control in measured
    requires ResourcePeak(measured, history, measured[control]) < U64_MAX
    ensures TotalGrowth(history[control]) * NANOS_PER_SECOND
            <= ResourcePeak(measured, history, measured[control]) * TotalElapsed(history[control])
               + Unrated(history[control]) * NANOS_PER_SECOND
  {
    var peak := ResourcePeak(measured, history, measured[control]);
    assert Share(measured, history, measured[control], control) <= peak by {
      match control
      case ReadBytes =>
      case WriteBytes =>
      case ReadOperations =>
      case WriteOperations =>
    }
    PeakIsLeastBound(history[control], NANOS_PER_SECOND, peak);
    BoundsTotal(history[control], NANOS_PER_SECOND, peak);
  }

  /** At the clamp the bound can fail: one nanosecond may carry more than 2^64 units a second. */
  lemma ClampLosesTraffic()
    ensures var history := map[ReadBytes := [Interval(1, U64_MAX)]];
            var measured := map[ReadBytes := "reads"];
            && ResourcePeak(measured, history, "reads") == U64_MAX
            && TotalGrowth(history[ReadBytes]) * NANOS_PER_SECOND > U64_MAX * TotalElapsed(history[ReadBytes])
  {
    var interval := Interval(1, U64_MAX);
    var history := map[ReadBytes := [interval]];
    assert [interval][..0] == [];
    CeilDivByOne(U64_MAX * NANOS_PER_SECOND);
  }

  /** Every measured control's history grew by one interval of the same length. */
  ghost predicate Advanced(measured: map<Control, string>, before: map<Control, seq<Interval>>, after: map<Control,
                           seq<Interval>>,
                           elapsed: nat, previous: Counters, current: Counters)
  {
    && measured.Keys <= before.Keys && measured.Keys <= after.Keys
    && forall control :: control in measured ==>
         && previous.Of(control) <= current.Of(control)
         && after[control] == before[control] + [Interval(elapsed, current.Of(control) - previous.Of(control))]
  }

  /** Each measured control grew by its own counter: reads and writes in bytes, and in operations. */
  ghost predicate EachGrew(measured: map<Control, string>, before: map<Control, seq<Interval>>,
                           after: map<Control, seq<Interval>>, elapsed: nat, previous: Counters, current: Counters)
    requires measured.Keys <= before.Keys && measured.Keys <= after.Keys
  {
    && (ReadBytes in measured ==> GrewBy(before[ReadBytes], after[ReadBytes], elapsed, previous.rbytes, current.rbytes))
    && (WriteBytes in measured ==>
          GrewBy(before[WriteBytes], after[WriteBytes], elapsed, previous.wbytes, current.wbytes))
    && (ReadOperations in measured ==>
          GrewBy(before[ReadOperations], after[ReadOperations], elapsed, previous.rios, current.rios))
    && (WriteOperations in measured ==>
          GrewBy(before[WriteOperations], after[WriteOperations], elapsed, previous.wios, current.wios))
  }

  lemma EachGrows(measured: map<Control, string>, before: map<Control, seq<Interval>>, after: map<Control,
                  seq<Interval>>,
                  elapsed: nat, previous: Counters, current: Counters)
    requires Advanced(measured, before, after, elapsed, previous, current)
    ensures EachGrew(measured, before, after, elapsed, previous, current)
  {
  }

  ghost predicate GrewBy(before: seq<Interval>, after: seq<Interval>, elapsed: nat, previous: nat, current: nat) {
    previous <= current && after == before + [Interval(elapsed, current - previous)]
  }

  /** The clamped rate of one control over one interval, or 0 when it is measured for another resource. */
  function ControlRate(measured: map<Control, string>, previous: Counters, current: Counters, elapsed: nat,
                       resource: string, control: Control): Word
  {
    if control in measured && measured[control] == resource && previous.Of(control) <= current.Of(control)
    then Min(IntervalRate(Interval(elapsed, current.Of(control) - previous.Of(control)), NANOS_PER_SECOND), U64_MAX)
    else 0
  }

  /** The highest rate over one interval of the controls measured for `resource`. */
  function Observed(measured: map<Control, string>, previous: Counters, current: Counters, elapsed: nat,
                    resource: string): Word {
    Max(Max(ControlRate(measured, previous, current, elapsed, resource, ReadBytes),
            ControlRate(measured, previous, current, elapsed, resource, WriteBytes)),
        Max(ControlRate(measured, previous, current, elapsed, resource, ReadOperations),
            ControlRate(measured, previous, current, elapsed, resource, WriteOperations)))
  }

  lemma ShareAdvances(measured: map<Control, string>, before: map<Control, seq<Interval>>, after: map<Control,
                      seq<Interval>>,
                      elapsed: nat, previous: Counters, current: Counters, resource: string, control: Control)
    requires Advanced(measured, before, after, elapsed, previous, current)
    ensures Min(Share(measured, after, resource, control), U64_MAX)
            == Max(Min(Share(measured, before, resource, control), U64_MAX),
                   ControlRate(measured, previous, current, elapsed, resource, control))
  {
    if control in measured {
      Appended(before[control], Interval(elapsed, current.Of(control) - previous.Of(control)), NANOS_PER_SECOND);
    }
  }

  lemma ClampedMaximum(a: nat, b: nat, c: nat, d: nat, a': nat, b': nat, c': nat, d': nat, ra: nat, rb: nat, rc: nat,
                       rd: nat, limit: nat)
    requires Min(a', limit) == Max(Min(a, limit), ra) && Min(b', limit) == Max(Min(b, limit), rb)
    requires Min(c', limit) == Max(Min(c, limit), rc) && Min(d', limit) == Max(Min(d, limit), rd)
    ensures Min(Max(Max(a', b'), Max(c', d')), limit)
              == Max(Min(Max(Max(a, b), Max(c, d)), limit), Max(Max(ra, rb), Max(rc, rd)))
  {
    ClampedPair(a, b, a', b', ra, rb, limit);
    ClampedPair(c, d, c', d', rc, rd, limit);
    ClampedPair(Max(a, b), Max(c, d), Max(a', b'), Max(c', d'), Max(ra, rb), Max(rc, rd), limit);
  }

  lemma ClampedPair(a: nat, b: nat, a': nat, b': nat, ra: nat, rb: nat, limit: nat)
    requires Min(a', limit) == Max(Min(a, limit), ra) && Min(b', limit) == Max(Min(b, limit), rb)
    ensures Min(Max(a', b'), limit) == Max(Min(Max(a, b), limit), Max(ra, rb))
  {
  }

  /** Taking the maximum with what one interval showed keeps the peak of the whole history. */
  lemma PeakAdvances(measured: map<Control, string>, before: map<Control, seq<Interval>>, after: map<Control,
                     seq<Interval>>,
                     elapsed: nat, previous: Counters, current: Counters, resource: string)
    requires Advanced(measured, before, after, elapsed, previous, current)
    ensures ResourcePeak(measured, after, resource)
            == Max(ResourcePeak(measured, before, resource), Observed(measured, previous, current, elapsed, resource))
  {
    ShareAdvances(measured, before, after, elapsed, previous, current, resource, ReadBytes);
    ShareAdvances(measured, before, after, elapsed, previous, current, resource, WriteBytes);
    ShareAdvances(measured, before, after, elapsed, previous, current, resource, ReadOperations);
    ShareAdvances(measured, before, after, elapsed, previous, current, resource, WriteOperations);
    ClampedMaximum(
      Share(measured, before, resource, ReadBytes), Share(measured, before, resource, WriteBytes),
      Share(measured, before, resource, ReadOperations), Share(measured, before, resource, WriteOperations),
      Share(measured, after, resource, ReadBytes), Share(measured, after, resource, WriteBytes),
      Share(measured, after, resource, ReadOperations), Share(measured, after, resource, WriteOperations),
      ControlRate(measured, previous, current, elapsed, resource, ReadBytes),
      ControlRate(measured, previous, current, elapsed, resource, WriteBytes),
      ControlRate(measured, previous, current, elapsed, resource, ReadOperations),
      ControlRate(measured, previous, current, elapsed, resource, WriteOperations), U64_MAX);
  }

  ghost function Peaks(measured: map<Control, string>, history: map<Control, seq<Interval>>): map<string, nat>
    requires measured.Keys <= history.Keys
  {
    map resource | resource in measured.Values :: ResourcePeak(measured, history, resource)
  }

  function ObservedRates(measured: map<Control, string>, previous: Counters, current: Counters,
                         elapsed: nat): map<string, Word> {
    map resource | resource in measured.Values :: Observed(measured, previous, current, elapsed, resource)
  }

  ghost predicate Raised(before: map<string, nat>, observed: map<string, nat>, after: map<string, nat>) {
    && before.Keys == observed.Keys == after.Keys
    && forall resource :: resource in before ==> after[resource] == Max(before[resource], observed[resource])
  }

  lemma PeaksAdvance(measured: map<Control, string>, before: map<Control, seq<Interval>>, after: map<Control,
                     seq<Interval>>,
                     elapsed: nat, previous: Counters, current: Counters)
    requires Advanced(measured, before, after, elapsed, previous, current)
    ensures Raised(Peaks(measured, before), ObservedRates(measured, previous, current, elapsed), Peaks(measured, after))
  {
    forall resource | resource in measured.Values
      ensures ResourcePeak(measured, after, resource)
              == Max(ResourcePeak(measured, before, resource), Observed(measured, previous, current, elapsed, resource))
    {
      PeakAdvances(measured, before, after, elapsed, previous, current, resource);
    }
  }

  /** Every reported peak raised by what its resource just showed. */
  method RaisePeaks(peaks: map<string, Word>, observed: map<string, Word>) returns (selected: map<string, Word>)
    requires peaks.Keys == observed.Keys
    ensures Raised(peaks, observed, selected)
  {
    selected := peaks;
    var remaining := peaks.Keys;
    while remaining != {}
      invariant remaining <= peaks.Keys && selected.Keys == peaks.Keys
      invariant forall resource :: resource in remaining ==> selected[resource] == peaks[resource]
      invariant forall resource :: resource in peaks.Keys - remaining ==>
                selected[resource] == Max(peaks[resource], observed[resource])
      decreases remaining
    {
      var resource :| resource in remaining;
      remaining := remaining - {resource};
      selected := selected[resource := Max(selected[resource], observed[resource])];
    }
  }

  lemma RaisedUnique(before: map<string, nat>, observed: map<string, nat>, after: map<string, nat>, other: map<string,
                     nat>)
    requires Raised(before, observed, after) && Raised(before, observed, other)
    ensures after == other
  {
  }

  /** The sampler's state describes one history of every measured control since `start`. */
  ghost predicate IoTracks(measured: map<Control, string>, sample: IoSample, start: Counters, history: map<Control,
                           seq<Interval>>) {
    && measured.Keys <= history.Keys
    && sample.peaks == Peaks(measured, history)
    && (forall control :: control in measured ==>
        sample.counters.Of(control) == start.Of(control) + TotalGrowth(history[control]))
  }

  ghost predicate Falling(measured: map<Control, string>, sample: Option<IoSample>, counters: Counters) {
    sample.Some? && exists control :: control in measured && counters.Of(control) < sample.value.counters.Of(control)
  }

  ghost function NextHistory(measured: map<Control, string>, before: map<Control, seq<Interval>>, elapsed: nat,
                             previous: Counters,
                             current: Counters): (after: map<Control, seq<Interval>>)
    requires measured.Keys <= before.Keys && forall control :: control in measured ==>
              previous.Of(control) <= current.Of(control)
    ensures Advanced(measured, before, after, elapsed, previous, current)
  {
    map control | control in measured ::
        before[control] + [Interval(elapsed, current.Of(control) - previous.Of(control))]
  }

  lemma TracksNext(measured: map<Control, string>, sample: IoSample, start: Counters, before: map<Control,
                   seq<Interval>>,
                   after: map<Control, seq<Interval>>, next: IoSample)
    requires IoTracks(measured, sample, start, before) && sample.at <= next.at
    requires Advanced(measured, before, after, next.at - sample.at, sample.counters, next.counters)
              && measured.Keys <= after.Keys
    requires next.peaks == Peaks(measured, after)
    ensures IoTracks(measured, next, start, after)
  {
    GrowthAdvances(measured, before, after, next.at - sample.at, sample.counters, next.counters);
  }

  /** The reading that follows `sample`, when no measured counter fell. */
  method NextSample(measured: map<Control, string>, sample: IoSample, ghost start: Counters, ghost history: map<Control,
                    seq<Interval>>,
                    now: nat, counters: Counters)
    returns (next: IoSample, ghost after: map<Control, seq<Interval>>)
    requires IoTracks(measured, sample, start, history) && sample.at <= now
              && !Falling(measured, Some(sample), counters)
    ensures next.at == now && next.counters == counters
    ensures IoTracks(measured, next, start, after)
    ensures Advanced(measured, history, after, now - sample.at, sample.counters, counters)
  {
    var elapsed := now - sample.at;
    after := NextHistory(measured, history, elapsed, sample.counters, counters);
    var observed := ObservedRates(measured, sample.counters, counters, elapsed);
    var selected := RaisePeaks(sample.peaks, observed);
    PeaksAdvance(measured, history, after, elapsed, sample.counters, counters);
    RaisedUnique(sample.peaks, observed, selected, Peaks(measured, after));
    next := IoSample(now, counters, selected);
    TracksNext(measured, sample, start, history, after, next);
  }

  /** `measured` names, for each throughput control the request binds, its resource. */
  class IoSampler {
    const measured: map<Control, string>
    var sample: Option<IoSample>
    ghost var start: Counters
    ghost var history: map<Control, seq<Interval>>

    ghost predicate Valid()
      reads this
    {
      sample.Some? ==> IoTracks(measured, sample.value, start, history)
    }

    /** A request that measures no throughput control never reaches the sampler. */
    constructor (measured: map<Control, string>)
      requires measured != map[]
      ensures Valid() && this.measured == measured && sample == None
    {
      this.measured := measured;
      sample := None;
      history := map control | control in measured :: [];
      start := Counters(0, 0, 0, 0);
    }

    /** `measure_io`; the caller's nanosecond clock is monotonic. */
    method Measure(now: nat, counters: Counters) returns (peaks: Result<map<string, Word>>)
      requires Valid()
      requires sample.Some? ==> sample.value.at <= now
      modifies this
      ensures Valid()
      ensures peaks.Err? <==> old(Falling(measured, sample, counters))
      ensures peaks.Err? ==> sample == old(sample) && history == old(history) && start == old(start)
      ensures peaks.Ok? ==> sample == Some(IoSample(now, counters, peaks.value))
      ensures peaks.Ok? && old(sample.Some?) ==>
                && start == old(start)
                && Advanced(measured, old(history), history, now - old(sample.value.at), old(sample.value.counters),
                            counters)
                && EachGrew(measured, old(history), history, now - old(sample.value.at), old(sample.value.counters),
                            counters)
      ensures peaks.Ok? && old(sample.None?) ==>
                start == counters && forall control :: control in measured ==> history[control] == []
    {
      if sample.None? {
        var zero: map<string, Word> := map resource | resource in measured.Values :: 0;
        sample, start := Some(IoSample(now, counters, zero)), counters;
        history := map control | control in measured :: [];
        assert zero == Peaks(measured, history);
        return Ok(zero);
      }
      if exists control :: control in measured && counters.Of(control) < sample.value.counters.Of(control) {
        return Err("io-stat-invalid");
      }
      var next, after := NextSample(measured, sample.value, start, history, now, counters);
      EachGrows(measured, history, after, now - sample.value.at, sample.value.counters, counters);
      sample, history := Some(next), after;
      return Ok(next.peaks);
    }
  }

  lemma GrowthAdvances(measured: map<Control, string>, before: map<Control, seq<Interval>>, after: map<Control,
                       seq<Interval>>,
                       elapsed: nat, previous: Counters, current: Counters)
    requires Advanced(measured, before, after, elapsed, previous, current)
    ensures forall control :: control in measured ==>
              TotalGrowth(after[control]) == TotalGrowth(before[control]) + current.Of(control) - previous.Of(control)
  {
    forall control | control in measured
      ensures TotalGrowth(after[control]) == TotalGrowth(before[control]) + current.Of(control) - previous.Of(control)
    {
      Appended(before[control], Interval(elapsed, current.Of(control) - previous.Of(control)), 1);
    }
  }
}
