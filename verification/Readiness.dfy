/** The indicator line of the engine (`crates/wvad/src/engine.rs`): WVAD sum, adaptive filter, signal
    line and crossover; and the bar from which it exists. */
module Readiness {
  import opened Common
  import opened Filters
  import opened Adaptive
  import opened VolumeChain

  datatype Bar = Bar(open: real, high: real, low: real, close: real, volume: real)

  datatype Settings = Settings(wvadLen: nat, signalLen: nat, kind: Kind, filterLen: nat)

  /** What `Params::validate` guarantees of these fields. */
  predicate ValidSettings(s: Settings) {
    && 1 <= s.wvadLen <= 500 && 1 <= s.signalLen <= 500 && 1 <= s.filterLen <= 500
    && (s.kind == OfHma ==> s.filterLen >= 2)
  }

  // -------------------------------------------------------------- the line over the bars

  /** A bar's pressure: its body over its range, times its volume. */
  function Raw(b: Bar): real {
    if b.high != b.low then (b.close - b.open) / (b.high - b.low) * b.volume else 0.0
  }

  function Raws(bars: seq<Bar>): (rs: seq<real>)
    ensures |rs| == |bars|
  {
    if |bars| == 0 then [] else Raws(Front(bars)) + [Raw(Last(bars))]
  }

  /** The WVAD sum: the pressure of the last `len` bars. */
  ghost function WvadAt(bars: seq<Bar>, len: nat): Option<real> {
    if |bars| < len then None else Some(Sum(Newest(Raws(bars), len)))
  }

  ghost function Inputs(bars: seq<Bar>, s: Settings): (ins: seq<Input>)
    ensures |ins| == |bars|
  {
    if |bars| == 0 then []
    else Inputs(Front(bars), s) + [Input(WvadAt(bars, s.wvadLen), Last(bars).volume)]
  }

  /** `r` is what the adaptive filter gives on the last bar. */
  ghost predicate IsFiltered(bars: seq<Bar>, s: Settings, r: Option<real>)
    requires ValidSettings(s)
  {
    forall len: nat :: len == s.filterLen ==> r == AdaptiveAt(s.kind, len, Inputs(bars, s))
  }

  /** The filtered value of the last bar; `FilteredIs` gives its formula. */
  ghost function FilteredAt(bars: seq<Bar>, s: Settings): Option<real>
    requires ValidSettings(s)
  {
    assert IsFiltered(bars, s, AdaptiveAt(s.kind, s.filterLen, Inputs(bars, s)));
    var r :| IsFiltered(bars, s, r);
    r
  }

  lemma {:induction false} FilteredIs(bars: seq<Bar>, s: Settings)
    requires ValidSettings(s)
    ensures FilteredAt(bars, s) == AdaptiveAt(s.kind, s.filterLen, Inputs(bars, s))
  {
    assert IsFiltered(bars, s, FilteredAt(bars, s));
  }

  /** Every filtered value along the bars. */
  ghost function Filtered(bars: seq<Bar>, s: Settings): seq<real>
    requires ValidSettings(s)
  {
    if |bars| == 0 then [] else Filtered(Front(bars), s) + OptSeq(FilteredAt(bars, s))
  }

  ghost function SignalAt(bars: seq<Bar>, s: Settings): Option<real>
    requires ValidSettings(s)
  {
    if FilteredAt(bars, s).None? then None else SmaAt(Filtered(bars, s), s.signalLen)
  }

  /** The line and its signal on the last bar, once both exist. */
  ghost function LineAt(bars: seq<Bar>, s: Settings): Option<(real, real)>
    requires ValidSettings(s)
  {
    var w, sig := FilteredAt(bars, s), SignalAt(bars, s);
    if w.Some? && sig.Some? then Some((w.value, sig.value)) else None
  }

  /** The line was on or under its signal and is now over it. */
  function CrossedUp(prev: Option<(real, real)>, now: Option<(real, real)>): bool {
    prev.Some? && now.Some? && prev.value.0 <= prev.value.1 && now.value.0 > now.value.1
  }

  function CrossedDown(prev: Option<(real, real)>, now: Option<(real, real)>): bool {
    prev.Some? && now.Some? && prev.value.0 >= prev.value.1 && now.value.0 < now.value.1
  }

  ghost function Previous(bars: seq<Bar>, s: Settings): Option<(real, real)>
    requires ValidSettings(s)
  {
    if |bars| == 0 then None else LineAt(bars, s)
  }

  // -------------------------------------------------------------- latency

  /** Values a filter needs before it gives one. */
  function Latency(kind: Kind, len: nat): nat
    requires len == Length(kind, len)
  {
    match kind
    case DoubleWma => 2 * len - 1
    case TripleVwma => 3 * len - 2
    case OfHma => len + RoundSqrt(len) - 1
    case OfLlama => len + 1
    case OfSma => len
    case OfRma => len
    case _ => 1
  }

  lemma {:induction false} WmaOutsCount(xs: seq<real>, len: nat)
    requires len >= 1
    ensures |WmaOuts(xs, len)| == From(|xs|, len)
  {
    if |xs| > 0 {
      WmaOutsCount(Front(xs), len);
    }
  }

  lemma {:induction false} HullInputsCount(xs: seq<real>, len: nat)
    requires len >= 2
    ensures |HullInputs(xs, len)| == From(|xs|, len)
  {
    if |xs| > 0 {
      HullInputsCount(Front(xs), len);
      HullInputOf(WmaAt(xs, len / 2), WmaAt(xs, len));
    }
  }

  /** A filter gives a value exactly from its latency on; the volume-weighted chain while no window is
      without volume. */
  lemma ExistsFromLatency(kind: Kind, len: nat, ss: seq<Sample>)
    requires kind != OfKalman && len == Length(kind, len)
    requires kind == TripleVwma ==> NonNegative(ss) && Wet(ss, len)
    ensures OnValues(kind, len, ss).Some? <==> |ss| >= Latency(kind, len)
  {
    match kind
    case DoubleWma =>
      OnDoubleWma(len, ss);
      WmaOutsCount(Values(ss), len);
    case TripleVwma =>
      OnTripleVwma(len, ss);
      TripleWhenWet(ss, len);
    case OfHma =>
      OnHma(len, ss);
      HullInputsCount(Values(ss), len);
    case OfSma => OnSma(len, ss);
    case OfEma => OnEma(len, ss);
    case OfRma => OnRma(len, ss);
    case OfLlama => OnLlama(len, ss);
    case NoFilter => OnNone(len, ss);
  }

  // -------------------------------------------------------------- readiness

  ghost predicate BarsNonNegative(bars: seq<Bar>) {
    forall i :: 0 <= i < |bars| ==> bars[i].volume >= 0.0
  }

  /** Bar `b` ends a run of `filterLen` bars without volume, all of them with a WVAD sum. */
  ghost predicate DryBars(bars: seq<Bar>, b: int, s: Settings)
    requires ValidSettings(s)
  {
    s.wvadLen + s.filterLen - 1 <= b <= |bars| && forall i :: b - s.filterLen <= i < b ==> bars[i].volume == 0.0
  }

  ghost predicate WetBars(bars: seq<Bar>, s: Settings)
    requires ValidSettings(s)
  {
    forall b :: !DryBars(bars, b, s)
  }

  /** What the volume-weighted chain needs of its bars; the other filters need nothing. */
  ghost predicate Fluent(bars: seq<Bar>, s: Settings)
    requires ValidSettings(s)
  {
    s.kind == TripleVwma ==> BarsNonNegative(bars) && WetBars(bars, s)
  }

  /** Sample `i` is bar `w + i`. */
  ghost predicate SameVolumes(ss: seq<Sample>, bars: seq<Bar>, w: nat)
    requires w >= 1
  {
    |ss| == From(|bars|, w) && forall i :: 0 <= i < |ss| ==> ss[i].volume == bars[w - 1 + i].volume
  }

  lemma {:induction false} InputsPresent(bars: seq<Bar>, s: Settings)
    requires ValidSettings(s)
    ensures SameVolumes(Present(Inputs(bars, s)), bars, s.wvadLen)
    ensures |bars| > 0 ==> Last(Inputs(bars, s)) == Input(WvadAt(bars, s.wvadLen), Last(bars).volume)
  {
    if |bars| > 0 {
      InputsPresent(Front(bars), s);
      assert Front(Inputs(bars, s)) == Inputs(Front(bars), s);
      assert forall i :: 0 <= i < |bars| - 1 ==> Front(bars)[i] == bars[i];
    }
  }

  lemma NonNegativeSamples(ss: seq<Sample>, bars: seq<Bar>, w: nat)
    requires w >= 1 && SameVolumes(ss, bars, w) && BarsNonNegative(bars)
    ensures NonNegative(ss)
  {
  }

  lemma DrySamplesAreBars(ss: seq<Sample>, bars: seq<Bar>, s: Settings, b: int)
    requires ValidSettings(s) && SameVolumes(ss, bars, s.wvadLen)
    ensures DryBars(bars, b, s) <==> DryAt(ss, b - s.wvadLen + 1, s.filterLen)
  {
    if DryAt(ss, b - s.wvadLen + 1, s.filterLen) {
      forall i | b - s.filterLen <= i < b ensures bars[i].volume == 0.0 {
        assert ss[i - s.wvadLen + 1].volume == bars[i].volume;
      }
    }
  }

  lemma {:induction false} BarsAreSamples(bars: seq<Bar>, s: Settings, b: int)
    requires ValidSettings(s)
    ensures BarsNonNegative(bars) ==> NonNegative(SamplesOf(bars, s))
    ensures DryBars(bars, b, s) <==> DryAt(SamplesOf(bars, s), b - s.wvadLen + 1, s.filterLen)
  {
    InputsPresent(bars, s);
    DrySamplesAreBars(SamplesOf(bars, s), bars, s, b);
    if BarsNonNegative(bars) {
      NonNegativeSamples(SamplesOf(bars, s), bars, s.wvadLen);
    }
  }

  lemma {:induction false} WetSamples(bars: seq<Bar>, s: Settings)
    requires ValidSettings(s) && BarsNonNegative(bars) && WetBars(bars, s)
    ensures NonNegative(SamplesOf(bars, s)) && Wet(SamplesOf(bars, s), s.filterLen)
  {
    BarsAreSamples(bars, s, 0);
    forall k ensures !DryAt(SamplesOf(bars, s), k, s.filterLen) {
      BarsAreSamples(bars, s, k + s.wvadLen - 1);
    }
  }

  lemma {:induction false} KalmanExists(xs: seq<Option<real>>, q: real)
    requires q > 0.0
    ensures KalmanAt(xs, q).Some? <==> |xs| > 0 && Last(xs).Some?
  {
  }

  function FilterBar(s: Settings): nat
    requires ValidSettings(s)
  {
    s.wvadLen + Latency(s.kind, s.filterLen) - 1
  }

  ghost function SamplesOf(bars: seq<Bar>, s: Settings): seq<Sample>
    requires ValidSettings(s)
  {
    Present(Inputs(bars, s))
  }

  /** Once there is a WVAD sum, the filter works on the samples. */
  lemma {:induction false} FilteredOn(bars: seq<Bar>, s: Settings)
    requires ValidSettings(s) && s.kind != OfKalman
    ensures FilteredAt(bars, s).Some?
            <==> |bars| >= s.wvadLen && OnValues(s.kind, s.filterLen, SamplesOf(bars, s)).Some?
  {
    InputsPresent(bars, s);
    FilteredIs(bars, s);
  }

  lemma {:induction false} FilteredKalman(bars: seq<Bar>, s: Settings)
    requires ValidSettings(s) && s.kind == OfKalman
    ensures FilteredAt(bars, s).Some? <==> |bars| >= s.wvadLen
  {
    InputsPresent(bars, s);
    FilteredIs(bars, s);
    KalmanExists(Sums(Inputs(bars, s)), Share(s.filterLen));
  }

  lemma {:induction false} SampleCount(bars: seq<Bar>, s: Settings)
    requires ValidSettings(s)
    ensures |SamplesOf(bars, s)| == From(|bars|, s.wvadLen)
  {
    InputsPresent(bars, s);
  }

  lemma FilterExists(bars: seq<Bar>, s: Settings)
    requires ValidSettings(s) && Fluent(bars, s)
    ensures FilteredAt(bars, s).Some? <==> |bars| >= FilterBar(s)
  {
    if s.kind == OfKalman {
      FilteredKalman(bars, s);
    } else {
      if s.kind == TripleVwma {
        WetSamples(bars, s);
      }
      FilteredOn(bars, s);
      SampleCount(bars, s);
      ExistsFromLatency(s.kind, s.filterLen, SamplesOf(bars, s));
    }
  }

  lemma FluentFront(bars: seq<Bar>, s: Settings)
    requires ValidSettings(s) && Fluent(bars, s) && |bars| > 0
    ensures Fluent(Front(bars), s)
  {
    if s.kind == TripleVwma {
      forall b ensures !DryBars(Front(bars), b, s) {
        if DryBars(Front(bars), b, s) {
          DryLonger(Front(bars), bars, b, s);
        }
      }
    }
  }

  lemma DryLonger(some: seq<Bar>, bars: seq<Bar>, b: int, s: Settings)
    requires ValidSettings(s) && some <= bars && DryBars(some, b, s)
    ensures DryBars(bars, b, s)
  {
    forall i | b - s.filterLen <= i < b ensures bars[i].volume == 0.0 {
      assert some[i] == bars[i];
    }
  }

  lemma {:induction false} FilteredCount(bars: seq<Bar>, s: Settings)
    requires ValidSettings(s) && Fluent(bars, s)
    ensures |Filtered(bars, s)| == From(|bars|, FilterBar(s))
  {
    if |bars| > 0 {
      FluentFront(bars, s);
      FilteredCount(Front(bars), s);
      FilterExists(bars, s);
    }
  }

  /** The number of the first bar (from 1) with a signal line. */
  function SignalBar(s: Settings): nat
    requires ValidSettings(s)
  {
    s.wvadLen + Latency(s.kind, s.filterLen) + s.signalLen - 2
  }

  /** The signal line exists exactly from bar `wvadLen + latency + signalLen - 2` on. */
  lemma SignalExists(bars: seq<Bar>, s: Settings)
    requires ValidSettings(s) && Fluent(bars, s)
    ensures SignalAt(bars, s).Some? <==> |bars| >= SignalBar(s)
    ensures LineAt(bars, s).Some? <==> |bars| >= SignalBar(s)
  {
    FilterExists(bars, s);
    FilteredCount(bars, s);
  }

  // ------------------------------------------------------- bars without volume

  /** The volume-weighted chain never gives a value early. */
  lemma NotBefore(bars: seq<Bar>, s: Settings)
    requires ValidSettings(s) && s.kind == TripleVwma && BarsNonNegative(bars)
    ensures FilteredAt(bars, s).Some? ==> |bars| >= FilterBar(s)
  {
    SampleCount(bars, s);
    BarsAreSamples(bars, s, 0);
    FilteredOn(bars, s);
    OnTripleVwma(s.filterLen, SamplesOf(bars, s));
    TripleNotBefore(SamplesOf(bars, s), s.filterLen);
  }

  /** A dry run that ends on the last bar, or before the chain's first value on that bar. */
  lemma DryGivesNone(bars: seq<Bar>, s: Settings, b: int)
    requires ValidSettings(s) && s.kind == TripleVwma && BarsNonNegative(bars) && DryBars(bars, b, s)
    requires b == |bars| || |bars| == FilterBar(s)
    ensures FilteredAt(bars, s).None?
  {
    SampleCount(bars, s);
    BarsAreSamples(bars, s, b);
    FilteredOn(bars, s);
    DrySamples(SamplesOf(bars, s), s.filterLen, b - s.wvadLen + 1);
  }

  lemma DrySamples(ss: seq<Sample>, len: nat, k: int)
    requires len >= 1 && NonNegative(ss) && DryAt(ss, k, len) && (k == |ss| || |ss| == 3 * len - 2)
    ensures OnValues(TripleVwma, len, ss).None?
  {
    OnTripleVwma(len, ss);
    if k == |ss| {
      TripleDryEnd(ss, len);
    } else {
      TripleDryEarly(ss, len, k);
    }
  }

  lemma {:induction false} CountAtMost(bars: seq<Bar>, s: Settings)
    requires ValidSettings(s) && s.kind == TripleVwma && BarsNonNegative(bars)
    ensures |Filtered(bars, s)| <= From(|bars|, FilterBar(s))
  {
    if |bars| > 0 {
      CountAtMost(Front(bars), s);
      NotBefore(bars, s);
    }
  }

  /** A bar without a filtered value costs the signal line one. */
  lemma {:induction false} CountMisses(bars: seq<Bar>, s: Settings, t: int)
    requires ValidSettings(s) && s.kind == TripleVwma && BarsNonNegative(bars)
    requires FilterBar(s) <= t <= |bars| && FilteredAt(bars[..t], s).None?
    ensures |Filtered(bars, s)| < From(|bars|, FilterBar(s))
  {
    if t == |bars| {
      assert bars[..t] == bars;
      CountAtMost(Front(bars), s);
    } else {
      assert Front(bars)[..t] == bars[..t];
      CountMisses(Front(bars), s, t);
    }
  }

  /** A dry run of `filterLen` bars: on its last bar, or on the first bar that should have it, there is no
      signal line. */
  lemma {:induction false} DryDelays(bars: seq<Bar>, s: Settings, b: int) returns (n: nat)
    requires ValidSettings(s) && s.kind == TripleVwma && BarsNonNegative(bars) && DryBars(bars, b, s)
             && |bars| >= SignalBar(s)
    ensures SignalBar(s) <= n <= |bars| && SignalAt(bars[..n], s).None?
  {
    n := if b >= SignalBar(s) then b else SignalBar(s);
    var t := if b >= FilterBar(s) then b else FilterBar(s);
    DryShorter(bars, b, s, t);
    DryGivesNone(bars[..t], s, b);
    if b < SignalBar(s) {
      assert bars[..n][..t] == bars[..t];
      CountMisses(bars[..n], s, t);
    }
  }

  lemma DryShorter(bars: seq<Bar>, b: int, s: Settings, t: nat)
    requires ValidSettings(s) && DryBars(bars, b, s) && b <= t <= |bars|
    ensures DryBars(bars[..t], b, s)
  {
  }

  ghost predicate SignalFrom(bars: seq<Bar>, s: Settings)
    requires ValidSettings(s)
  {
    forall n :: SignalBar(s) <= n <= |bars| ==> SignalAt(bars[..n], s).Some?
  }

  lemma NotSignalFrom(bars: seq<Bar>, s: Settings, n: nat)
    requires ValidSettings(s) && SignalBar(s) <= n <= |bars| && SignalAt(bars[..n], s).None?
    ensures !SignalFrom(bars, s)
  {
  }

  lemma FluentPrefix(bars: seq<Bar>, s: Settings, n: nat)
    requires ValidSettings(s) && Fluent(bars, s) && n <= |bars|
    ensures Fluent(bars[..n], s)
  {
    if s.kind == TripleVwma {
      forall b ensures !DryBars(bars[..n], b, s) {
        if DryBars(bars[..n], b, s) {
          DryLonger(bars[..n], bars, b, s);
        }
      }
    }
  }

  /** With the volume-weighted chain, the signal line is there on every bar from its first on exactly
      when no `filterLen` consecutive bars with a WVAD sum are all without volume. */
  lemma SignalNeedsVolume(bars: seq<Bar>, s: Settings)
    requires ValidSettings(s) && s.kind == TripleVwma && BarsNonNegative(bars) && |bars| >= SignalBar(s)
    ensures SignalFrom(bars, s) <==> WetBars(bars, s)
  {
    if WetBars(bars, s) {
      forall n | SignalBar(s) <= n <= |bars| ensures SignalAt(bars[..n], s).Some? {
        FluentPrefix(bars, s, n);
        SignalExists(bars[..n], s);
      }
    } else {
      var b :| DryBars(bars, b, s);
      var n := DryDelays(bars, s, b);
      NotSignalFrom(bars, s, n);
    }
  }

  // -------------------------------------------------------------- min_warmup

  function FilterWarmup(kind: Kind, len: nat): nat {
    match kind
    case NoFilter => 0
    case OfKalman => 0
    case DoubleWma => 2 * len
    case TripleVwma => 3 * len
    case OfLlama => len + 1
    case _ => len
  }

  function MinWarmup(s: Settings, adxLen: nat, atrLen: nat): nat {
    Max(Max(s.wvadLen + FilterWarmup(s.kind, s.filterLen) + s.signalLen + 1, 2 * adxLen + 1), atrLen + 1)
  }

  lemma OblongMono(b: int, a: int)
    requires 0 <= b < a
    ensures b * b + b <= a * a - a
  {
    MulMono(b, a - 1, b + 1);
    MulMono(b + 1, a, a - 1);
    assert a * a - a == a * (a - 1) && b * b + b == b * (b + 1);
  }

  lemma RootMono(m: nat, n: nat)
    requires 1 <= m <= n
    ensures RoundSqrt(m) <= RoundSqrt(n)
  {
    RoundSqrtIsNearest(m);
    RoundSqrtIsNearest(n);
    if RoundSqrt(n) < RoundSqrt(m) {
      OblongMono(RoundSqrt(n), RoundSqrt(m));
    }
  }

  lemma RootIsSmall(len: nat)
    requires len >= 1
    ensures RoundSqrt(len) <= 4 <==> len <= 20
  {
    RoundSqrtIsNearest(20);
    RoundSqrtIsNearest(21);
    if RoundSqrt(20) > 4 {
      OblongMono(4, RoundSqrt(20));
    }
    if RoundSqrt(21) < 5 {
      OblongMono(RoundSqrt(21), 5);
    }
    if len <= 20 {
      RootMono(len, 20);
    } else {
      RootMono(21, len);
    }
  }

  /** `min_warmup` leaves room for the signal line for every filter but a long Hull average; there it
      does so only while another indicator is the slower one. */
  lemma WarmupCovers(s: Settings, adxLen: nat, atrLen: nat)
    requires ValidSettings(s)
    ensures SignalBar(s) <= MinWarmup(s, adxLen, atrLen)
       <==> s.kind != OfHma || s.filterLen <= 20 || SignalBar(s) <= Max(2 * adxLen + 1, atrLen + 1)
  {
    if s.kind == OfHma {
      RootIsSmall(s.filterLen);
    }
  }

  /** For every choice of the other lengths: exactly while the Hull length is at most 20. */
  lemma WarmupAlwaysCovers(s: Settings)
    requires ValidSettings(s)
    ensures (forall adxLen: nat, atrLen: nat | 1 <= adxLen <= 500 && 1 <= atrLen <= 500 ::
               SignalBar(s) <= MinWarmup(s, adxLen, atrLen))
       <==> s.kind != OfHma || s.filterLen <= 20
  {
    forall adxLen: nat, atrLen: nat | 1 <= adxLen <= 500 && 1 <= atrLen <= 500
      ensures s.kind != OfHma || s.filterLen <= 20 ==> SignalBar(s) <= MinWarmup(s, adxLen, atrLen)
    {
      WarmupCovers(s, adxLen, atrLen);
    }
    WarmupCovers(s, 1, 1);
    assert SignalBar(s) <= Max(2 * 1 + 1, 1 + 1) ==> s.kind != OfHma || s.filterLen <= 20;
  }

  // -------------------------------------------------------------- the mutable line

  class SignalLine {
    const s: Settings
    const sum: Sma
    const filter: Filter
    const signal: Sma
    ghost const repr: set<object>
    var prev: Option<(real, real)>
    ghost var bars: seq<Bar>

    /** The three stages have been fed the bars `bs`. */
    ghost predicate Fed(bs: seq<Bar>)
      requires (var ok := ValidSettings(s) && Wired(); ok)
      reads repr
    {
      && sum.Seen() == Raws(bs) && filter.seen == Inputs(bs, s) && signal.Seen() == Filtered(bs, s)
      && (var ok := sum.Valid(); ok) && (var ok := filter.Valid(); ok) && (var ok := signal.Valid(); ok)
    }

    ghost predicate Wired() {
      && repr == {sum.w, signal.w} + filter.repr && sum.w != signal.w && {sum.w, signal.w} !! filter.repr
      && this !in repr && filter in repr
      && sum.w.len == s.wvadLen && signal.w.len == s.signalLen && filter.kind == s.kind && filter.len == s.filterLen
    }

    ghost predicate Valid()
      reads this, repr
    {
      && (var ok := ValidSettings(s); ok) && prev == Previous(bars, s)
      && (var ok := Wired(); ok) && (var ok := Fed(bars); ok)
    }

    constructor (s: Settings)
      requires ValidSettings(s)
      ensures Valid() && this.s == s && bars == []
      ensures fresh(repr)
    {
      this.s := s;
      var sum := new Sma(s.wvadLen);
      var filter := new Filter(s.kind, s.filterLen);
      var signal := new Sma(s.signalLen);
      this.sum, this.filter, this.signal := sum, filter, signal;
      this.repr := {sum.w, signal.w} + filter.repr;
      this.prev := None;
      this.bars := [];
    }

    /** One bar: whether it crossed up or down, and whether the signal line exists. */
    method Update(b: Bar) returns (up: bool, down: bool, hasSignal: bool)
      requires Valid()
      modifies this, repr
      ensures (var ok := Valid(); ok) && bars == old(bars) + [b]
      ensures hasSignal == SignalAt(bars, s).Some?
      ensures up == CrossedUp(Previous(old(bars), s), LineAt(bars, s))
      ensures down == CrossedDown(Previous(old(bars), s), LineAt(bars, s))
    {
      var was := prev;
      hasSignal := Advance(b);
      up := CrossedUp(was, prev);
      down := CrossedDown(was, prev);
    }

    method Advance(b: Bar) returns (hasSignal: bool)
      requires (var ok := Valid(); ok)
      modifies this, repr
      ensures (var ok := Valid(); ok) && bars == old(bars) + [b] && prev == LineAt(bars, s)
      ensures hasSignal == SignalAt(bars, s).Some?
    {
      var filtered, sig := Feed(b);
      hasSignal := sig.Some?;
      label Fed:
      prev := if filtered.Some? && sig.Some? then Some((filtered.value, sig.value)) else None;
      bars := bars + [b];
      StaysFed@Fed(bars);
    }

    twostate lemma StaysFed(bs: seq<Bar>)
      requires (var ok := ValidSettings(s) && Wired(); ok) && (var ok := old(Fed(bs)); ok) && unchanged(repr)
      ensures (var ok := Fed(bs); ok)
    {
    }

    method Feed(b: Bar) returns (filtered: Option<real>, sig: Option<real>)
      requires (var ok := ValidSettings(s) && Wired(); ok) && (var ok := Fed(bars); ok)
      modifies repr
      ensures (var ok := Fed(bars + [b]); ok)
      ensures filtered == FilteredAt(bars + [b], s) && sig == SignalAt(bars + [b], s)
    {
      filtered := Smooth(b);
      ghost var kept := signal.Valid();
      assert kept;
      FilteredAppend(bars, b, s, filtered);
      sig := None;
      if filtered.Some? {
        sig := signal.Update(filtered.value);
      }
      ghost var sumKept, filterKept, signalFed := sum.Valid(), filter.Valid(), signal.Valid();
      assert sumKept;
      assert filterKept;
      assert signalFed;
    }

    method Smooth(b: Bar) returns (filtered: Option<real>)
      requires (var ok := ValidSettings(s) && Wired(); ok)
      requires (var ok := sum.Valid(); ok) && (var ok := filter.Valid(); ok)
      requires sum.Seen() == Raws(bars) && filter.seen == Inputs(bars, s)
      modifies repr - {signal.w}
      ensures (var ok := sum.Valid(); ok) && (var ok := filter.Valid(); ok)
      ensures sum.Seen() == Raws(bars + [b]) && filter.seen == Inputs(bars + [b], s)
      ensures filtered == FilteredAt(bars + [b], s)
    {
      BarAppend(bars, b, s);
      var mean := sum.Update(Raw(b));
      var wvad := if mean.Some? then Some(Times(mean.value, s.wvadLen as real)) else None;
      filtered := filter.Update(wvad, b.volume);
      FilteredIs(bars + [b], s);
    }
  }

  lemma {:induction false} MeanTimes(xs: seq<real>)
    requires |xs| > 0
    ensures Times(Mean(xs), |xs| as real) == Sum(xs)
  {
  }

  lemma {:induction false} BarAppend(bars: seq<Bar>, b: Bar, s: Settings)
    requires ValidSettings(s)
    ensures var all := bars + [b]; var mean := SmaAt(Raws(all), s.wvadLen);
            && Raws(all) == Raws(bars) + [Raw(b)]
            && WvadAt(all, s.wvadLen) == (if mean.Some? then Some(Times(mean.value, s.wvadLen as real)) else None)
            && Inputs(all, s) == Inputs(bars, s) + [Input(WvadAt(all, s.wvadLen), b.volume)]
  {
    var all := bars + [b];
    assert Front(all) == bars;
    if |all| >= s.wvadLen {
      NewestMeanIs(Raws(all), s.wvadLen);
      MeanTimes(Newest(Raws(all), s.wvadLen));
    }
  }

  lemma {:induction false} FilteredAppend(bars: seq<Bar>, b: Bar, s: Settings, f: Option<real>)
    requires ValidSettings(s) && f == FilteredAt(bars + [b], s)
    ensures Filtered(bars + [b], s) == if f.Some? then Filtered(bars, s) + [f.value] else Filtered(bars, s)
  {
    assert Front(bars + [b]) == bars;
  }
}
