/** Streaming filters (`crates/wvad/src/filters.rs`): each `update` is proved to return the filter's
    formula over the whole history of its inputs. */
module Filters {
  import opened Common

  // ------------------------------------------------------------- window formulas

  function Sum(xs: seq<real>): real {
    if |xs| == 0 then 0.0 else Sum(Front(xs)) + Last(xs)
  }

  /** Weights 1, 2, ..: the newest value weighs most. */
  function WeightedSum(xs: seq<real>): real {
    if |xs| == 0 then 0.0 else WeightedSum(Front(xs)) + Times(Last(xs), |xs| as real)
  }

  function Newest<T>(xs: seq<T>, n: nat): seq<T>
    requires n <= |xs|
  {
    xs[|xs| - n..]
  }

  function Mean(xs: seq<real>): real
    requires |xs| > 0
  {
    Sum(xs) / |xs| as real
  }

  /** Linearly weighted: the newest value weighs `|xs|`, the oldest 1. */
  function WeightedMean(xs: seq<real>): real
    requires |xs| > 0
  {
    WeightedSum(xs) / (|xs| as real * (|xs| as real + 1.0) / 2.0)
  }

  // `NewestMean`, `NewestWeighted`, `Smoothed` and `Extended` are defined as the one value with a
  // property, so that proofs see their formulas only through the lemmas that state them.

  ghost predicate IsNewestMean(xs: seq<real>, len: nat, r: real) {
    forall n: nat | n == len && 0 < n <= |xs| :: r == Mean(Newest(xs, n))
  }

  ghost function NewestMean(xs: seq<real>, len: nat): real
    requires 0 < len <= |xs|
  {
    assert IsNewestMean(xs, len, Mean(Newest(xs, len)));
    var r :| IsNewestMean(xs, len, r);
    r
  }

  lemma NewestMeanIs(xs: seq<real>, len: nat)
    requires 0 < len <= |xs|
    ensures NewestMean(xs, len) == Mean(Newest(xs, len))
  {
    assert IsNewestMean(xs, len, NewestMean(xs, len));
    var n := len;
    assert NewestMean(xs, len) == Mean(Newest(xs, n));
  }

  ghost predicate IsNewestWeighted(xs: seq<real>, len: nat, r: real) {
    forall n: nat | n == len && 0 < n <= |xs| :: r == WeightedMean(Newest(xs, n))
  }

  ghost function NewestWeighted(xs: seq<real>, len: nat): real
    requires 0 < len <= |xs|
  {
    assert IsNewestWeighted(xs, len, WeightedMean(Newest(xs, len)));
    var r :| IsNewestWeighted(xs, len, r);
    r
  }

  lemma NewestWeightedIs(xs: seq<real>, len: nat)
    requires 0 < len <= |xs|
    ensures NewestWeighted(xs, len) == WeightedMean(Newest(xs, len))
  {
    assert IsNewestWeighted(xs, len, NewestWeighted(xs, len));
    var n := len;
    assert NewestWeighted(xs, len) == WeightedMean(Newest(xs, n));
  }

  /** The mean of the last `len` values. */
  ghost function SmaAt(xs: seq<real>, len: nat): Option<real>
    requires len >= 1
  {
    if |xs| < len then None else Some(NewestMean(xs, len))
  }

  /** The linearly weighted mean of the last `len` values. */
  ghost function WmaAt(xs: seq<real>, len: nat): Option<real>
    requires len >= 1
  {
    if |xs| < len then None else Some(NewestWeighted(xs, len))
  }

  function Power(base: real, n: nat): real {
    if n == 0 then 1.0 else Times(base, Power(base, n - 1))
  }

  /** The weight of a value `age` bars old. */
  function Weight(a: real, age: nat): real {
    Times(a, Power(1.0 - a, age))
  }

  function Times(x: real, y: real): real {
    x * y
  }

  /** The first `n` of `ys`, each weighted by its age. */
  function AgedSum(ys: seq<real>, a: real, n: nat): real
    requires n <= |ys|
  {
    if n == 0 then 0.0 else AgedSum(ys, a, n - 1) + Times(Weight(a, |ys| - n), ys[n - 1])
  }

  /** The exponentially weighted mean of `seed` and the values `ys` after it. */
  function Decayed(seed: real, ys: seq<real>, a: real): real {
    Times(Power(1.0 - a, |ys|), seed) + AgedSum(ys, a, |ys|)
  }

  ghost predicate IsSmoothed(xs: seq<real>, k: nat, a: real, r: real) {
    forall n: nat | n == k && 0 < n <= |xs| :: r == Decayed(Mean(xs[..n]), xs[n..], a)
  }

  /** The exponentially weighted mean seeded with the mean of the first `k` values. */
  ghost function Smoothed(xs: seq<real>, k: nat, a: real): real
    requires 0 < k <= |xs|
  {
    assert IsSmoothed(xs, k, a, Decayed(Mean(xs[..k]), xs[k..], a));
    var r :| IsSmoothed(xs, k, a, r);
    r
  }

  lemma SmoothedIs(xs: seq<real>, k: nat, a: real)
    requires 0 < k <= |xs|
    ensures Smoothed(xs, k, a) == Decayed(Mean(xs[..k]), xs[k..], a)
  {
    assert IsSmoothed(xs, k, a, Smoothed(xs, k, a));
    var n := k;
    assert Smoothed(xs, k, a) == Decayed(Mean(xs[..n]), xs[n..], a);
  }

  function Share(len: nat): (r: real)
    requires len >= 1
    ensures r > 0.0
  {
    1.0 / len as real
  }

  /** A step of `a` from `prev` to `x`. */
  function Mix(a: real, x: real, prev: real): real {
    Times(a, x) + Times(1.0 - a, prev)
  }

  function EmaAlpha(len: nat): real
    requires len >= 1
  {
    2.0 / (len as real + 1.0)
  }

  /** Seeded with the first value. */
  ghost function EmaAt(xs: seq<real>, len: nat): Option<real>
    requires len >= 1
  {
    if |xs| == 0 then None else Some(Smoothed(xs, 1, EmaAlpha(len)))
  }

  /** Seeded with the mean of the first `len` values. */
  ghost function RmaAt(xs: seq<real>, len: nat): Option<real>
    requires len >= 1
  {
    if |xs| < len then None else Some(Smoothed(xs, len, Share(len)))
  }

  /** A value and the volume of its bar. */
  datatype Sample = Sample(x: real, volume: real)

  function Products(ss: seq<Sample>): seq<real> {
    if |ss| == 0 then [] else Products(Front(ss)) + [Times(Last(ss).x, Last(ss).volume)]
  }

  function Volumes(ss: seq<Sample>): seq<real> {
    if |ss| == 0 then [] else Volumes(Front(ss)) + [Last(ss).volume]
  }

  function Ratio(a: Option<real>, b: Option<real>): Option<real> {
    if a.Some? && b.Some? && b.value != 0.0 then Some(a.value / b.value) else None
  }

  /** The volume-weighted mean of the last `len` values; none while their volume is 0. */
  ghost function VwmaAt(ss: seq<Sample>, len: nat): Option<real>
    requires len >= 1
  {
    Ratio(SmaAt(Products(ss), len), SmaAt(Volumes(ss), len))
  }

  /** The whole number nearest to the square root. */
  function RoundSqrt(n: nat): (r: nat)
    requires n >= 1
    ensures r >= 1
  {
    NearestRoot(n, 1)
  }

  function NearestRoot(n: nat, r: nat): (k: nat)
    requires r >= 1
    ensures k >= 1
    decreases n - r
  {
    if n <= r * r + r || n <= r then r else NearestRoot(n, r + 1)
  }

  /** `r - 1/2 < sqrt(n) < r + 1/2`, squared and in whole numbers. */
  lemma RoundSqrtIsNearest(n: nat)
    requires n >= 1
    ensures var r := RoundSqrt(n); r * r - r < n <= r * r + r
  {
    NearestRootIsNearest(n, 1);
  }

  lemma {:induction false} NearestRootIsNearest(n: nat, r: nat)
    requires r >= 1 && r * r - r < n
    ensures var k := NearestRoot(n, r); k * k - k < n <= k * k + k
    decreases n - r
  {
    if n > r * r + r {
      assert (r + 1) * (r + 1) - (r + 1) == r * r + r;
      assert r * r >= 0;
      NearestRootIsNearest(n, r + 1);
    } else {
      assert NearestRoot(n, r) == r;
    }
  }

  /** The inputs of the last stage of the Hull average: twice the half-length mean less the full one. */
  ghost function HullInputs(xs: seq<real>, len: nat): seq<real>
    requires len >= 2
  {
    if |xs| == 0 then []
    else
      HullInputs(Front(xs), len) + HullInput(WmaAt(xs, len / 2), WmaAt(xs, len))
  }

  function HullInput(h: Option<real>, f: Option<real>): seq<real> {
    if h.Some? && f.Some? then [TwiceLess(h.value, f.value)] else []
  }

  function TwiceLess(h: real, f: real): real {
    2.0 * h - f
  }

  lemma HullInputOf(h: Option<real>, f: Option<real>)
    ensures HullInput(h, f) == if h.Some? && f.Some? then [TwiceLess(h.value, f.value)] else []
  {
  }

  lemma {:induction false} HullAppend(seen: seq<real>, x: real, len: nat)
    requires len >= 2
    ensures var all := seen + [x];
      HullInputs(all, len) == HullInputs(seen, len) + HullInput(WmaAt(all, len / 2), WmaAt(all, len))
  {
    assert Front(seen + [x]) == seen;
  }

  ghost function HmaAt(xs: seq<real>, len: nat): Option<real>
    requires len >= 2
  {
    if |xs| < len then None else WmaAt(HullInputs(xs, len), RoundSqrt(len))
  }

  ghost predicate IsExtended(xs: seq<real>, len: nat, r: real) {
    forall n: nat | n == len && 0 < n < |xs| :: r == Ahead(NewestMean(xs, n), Last(xs), xs[|xs| - 1 - n], n)
  }

  /** The mean of the last `len` values moved by half of the rise over `len` bars. */
  ghost function Extended(xs: seq<real>, len: nat): real
    requires 0 < len < |xs|
  {
    assert IsExtended(xs, len, Ahead(NewestMean(xs, len), Last(xs), xs[|xs| - 1 - len], len));
    var r :| IsExtended(xs, len, r);
    r
  }

  lemma ExtendedIs(xs: seq<real>, len: nat)
    requires 0 < len < |xs|
    ensures Extended(xs, len) == Ahead(NewestMean(xs, len), Last(xs), xs[|xs| - 1 - len], len)
  {
    assert IsExtended(xs, len, Extended(xs, len));
    var n := len;
    assert Extended(xs, len) == Ahead(NewestMean(xs, n), Last(xs), xs[|xs| - 1 - n], n);
  }

  /** The mean plus half the slope over `len` bars. */
  ghost function LlamaAt(xs: seq<real>, len: nat): Option<real>
    requires len >= 1
  {
    if |xs| < len + 1 then None else Some(Extended(xs, len))
  }

  /** `mean` moved by half of the rise from `past` to `x`. */
  function Ahead(mean: real, x: real, past: real, len: nat): real
    requires len >= 1
  {
    mean + (x - past) / len as real * (len as real / 2.0)
  }

  /** The gain for a predicted error. */
  function GainOf(pred: real): real
    requires pred > 0.0
  {
    pred / (pred + 1.0)
  }

  lemma GainInUnit(pred: real)
    requires pred > 0.0
    ensures 0.0 < GainOf(pred) < 1.0
    ensures Times(1.0 - GainOf(pred), pred) == GainOf(pred)
  {
    GainSplit(GainOf(pred), pred);
    PositiveFactor(pred + 1.0, GainOf(pred));
    PositiveFactor(pred + 1.0, 1.0 - GainOf(pred));
  }

  lemma GainSplit(g: real, pred: real)
    requires pred > 0.0 && g == pred / (pred + 1.0)
    ensures Times(pred + 1.0, g) == pred && Times(pred + 1.0, 1.0 - g) == 1.0 && Times(1.0 - g, pred) == g
  {
    QuotientTimes(pred, pred + 1.0);
    assert Times(1.0 - g, pred) == pred - Times(pred, g);
    assert Times(pred + 1.0, g) == Times(pred, g) + g;
    assert Times(pred + 1.0, 1.0 - g) == pred + 1.0 - Times(pred + 1.0, g);
  }

  lemma QuotientTimes(x: real, y: real)
    requires y > 0.0
    ensures Times(y, x / y) == x
  {
  }

  lemma PositiveFactor(x: real, y: real)
    requires x > 0.0 && Times(x, y) > 0.0
    ensures y > 0.0
  {
  }

  /** The Kalman gain of bar `n` (from 1): it does not depend on the inputs. */
  function Gain(n: nat, q: real): (g: real)
    requires q > 0.0
    ensures g > 0.0 && (n > 0 ==> g < 1.0)
  {
    if n == 0 then 1.0
    else
      GainInUnit(Gain(n - 1, q) + q);
      GainOf(Gain(n - 1, q) + q)
  }

  /** Each value moves the estimate by its bar's gain; a bar without a value forgets it. */
  function KalmanAt(xs: seq<Option<real>>, q: real): Option<real>
    requires q > 0.0
  {
    if |xs| == 0 || Last(xs).None? then None
    else
      var prev := KalmanAt(Front(xs), q);
      if prev.None? then Last(xs)
      else Some(Mix(Gain(|xs|, q), Last(xs).value, prev.value))
  }

  lemma TimesBetween(g: real, x: real, lo: real, hi: real)
    requires g >= 0.0 && lo <= x <= hi
    ensures Times(g, lo) <= Times(g, x) <= Times(g, hi)
  {
  }

  lemma MixBetween(g: real, x: real, e: real, lo: real, hi: real)
    requires 0.0 <= g <= 1.0 && lo <= x <= hi && lo <= e <= hi
    ensures lo <= Mix(g, x, e) <= hi
  {
    TimesBetween(g, x, lo, hi);
    TimesBetween(1.0 - g, e, lo, hi);
    assert Times(g, lo) + Times(1.0 - g, lo) == lo;
    assert Times(g, hi) + Times(1.0 - g, hi) == hi;
  }

  /** The estimate never leaves the range of the values it was given. */
  lemma {:induction false} KalmanStaysInside(xs: seq<Option<real>>, q: real, lo: real, hi: real)
    requires q > 0.0
    requires forall i :: 0 <= i < |xs| && xs[i].Some? ==> lo <= xs[i].value <= hi
    ensures KalmanAt(xs, q).Some? ==> lo <= KalmanAt(xs, q).value <= hi
  {
    if KalmanAt(xs, q).Some? {
      KalmanStaysInside(Front(xs), q, lo, hi);
      var prev := KalmanAt(Front(xs), q);
      if prev.Some? {
        MixBetween(Gain(|xs|, q), Last(xs).value, prev.value, lo, hi);
      }
    }
  }

  // ---------------------------------------------------------------- the filters

  function Tail(seen: seq<real>, n: nat): seq<real> {
    if |seen| < n then seen else Newest(seen, n)
  }

  lemma Slides(seen: seq<real>, x: real, n: nat)
    requires n >= 1
    ensures var more := Tail(seen, n) + [x];
            Tail(seen + [x], n) == if |more| > n then more[1..] else more
  {
  }

  /** The last `len` values. */
  class Window {
    const len: nat
    var buf: seq<real>
    ghost var seen: seq<real>

    ghost predicate Holds(n: nat)
      reads this
    {
      buf == Tail(seen, n)
    }

    /** Stated for every `n` equal to `len`, so that the users of a window need not look inside. */
    ghost predicate Valid()
      reads this
    {
      len >= 1 && forall n: nat :: n == len ==> Holds(n)
    }

    constructor (len: nat)
      ensures Valid() && this.len == (if len < 1 then 1 else len) && seen == []
    {
      this.len := if len < 1 then 1 else len;
      this.buf := [];
      this.seen := [];
    }

    method Push(x: real) returns (full: bool)
      requires Valid()
      modifies this
      ensures Valid() && seen == old(seen) + [x]
      ensures if full then |seen| >= len && buf == Newest(seen, len) else |seen| < len
    {
      assert Holds(len);
      Slides(seen, x, len);
      buf := buf + [x];
      seen := seen + [x];
      if |buf| > len {
        buf := buf[1..];
      }
      full := |buf| == len;
      assert Holds(len);
    }
  }

  method MeanOf(xs: seq<real>) returns (r: real)
    requires |xs| > 0
    ensures r == Mean(xs)
  {
    var sum := 0.0;
    for i := 0 to |xs|
      invariant sum == Sum(xs[..i])
    {
      assert Front(xs[..i + 1]) == xs[..i];
      sum := sum + xs[i];
    }
    assert xs[..|xs|] == xs;
    r := sum / |xs| as real;
  }

  method WeightedMeanOf(xs: seq<real>) returns (r: real)
    requires |xs| > 0
    ensures r == WeightedMean(xs)
  {
    var sum := 0.0;
    for i := 0 to |xs|
      invariant sum == WeightedSum(xs[..i])
    {
      assert Front(xs[..i + 1]) == xs[..i];
      sum := sum + Times(xs[i], (i + 1) as real);
    }
    assert xs[..|xs|] == xs;
    r := sum / (|xs| as real * (|xs| as real + 1.0) / 2.0);
  }

  class Sma {
    const w: Window

    ghost predicate Valid()
      reads w
    {
      var ok := w.Valid();
      ok
    }

    ghost function Seen(): seq<real>
      reads w
    {
      w.seen
    }

    constructor (len: nat)
      ensures Valid() && fresh(w) && w.len == (if len < 1 then 1 else len) && Seen() == []
    {
      w := new Window(len);
    }

    method Update(x: real) returns (r: Option<real>)
      requires Valid()
      modifies w
      ensures Valid() && Seen() == old(Seen()) + [x] && r == SmaAt(Seen(), w.len)
    {
      var full := w.Push(x);
      if !full {
        return None;
      }
      NewestMeanIs(w.seen, w.len);
      var m := MeanOf(w.buf);
      r := Some(m);
    }
  }

  class Wma {
    const w: Window

    ghost predicate Valid()
      reads w
    {
      var ok := w.Valid();
      ok
    }

    ghost function Seen(): seq<real>
      reads w
    {
      w.seen
    }

    constructor (len: nat)
      ensures Valid() && fresh(w) && w.len == (if len < 1 then 1 else len) && Seen() == []
    {
      w := new Window(len);
    }

    method Update(x: real) returns (r: Option<real>)
      requires Valid()
      modifies w
      ensures Valid() && Seen() == old(Seen()) + [x] && r == WmaAt(Seen(), w.len)
    {
      var full := w.Push(x);
      if !full {
        return None;
      }
      NewestWeightedIs(w.seen, w.len);
      var m := WeightedMeanOf(w.buf);
      r := Some(m);
    }
  }

  lemma TimesScale(k: real, x: real, y: real)
    ensures Times(Times(k, x), y) == Times(k, Times(x, y)) && Times(k, Times(x, y)) == Times(x, Times(k, y))
  {
  }

  lemma TimesSum(k: real, x: real, y: real)
    ensures Times(k, x + y) == Times(k, x) + Times(k, y)
  {
  }

  /** Every weight ages by one step. */
  lemma {:induction false} AgedSumStep(ys: seq<real>, y: real, a: real, n: nat)
    requires n <= |ys|
    ensures AgedSum(ys + [y], a, n) == Times(1.0 - a, AgedSum(ys, a, n))
  {
    if n > 0 {
      AgedSumStep(ys, y, a, n - 1);
      var w := Weight(a, |ys| - n);
      WeightAges(a, |ys| - n);
      TimesScale(1.0 - a, w, ys[n - 1]);
      TimesSum(1.0 - a, AgedSum(ys, a, n - 1), Times(w, ys[n - 1]));
    }
  }

  lemma WeightAges(a: real, age: nat)
    ensures Weight(a, age + 1) == Times(1.0 - a, Weight(a, age))
  {
    TimesScale(a, 1.0 - a, Power(1.0 - a, age));
  }

  /** One more value: the recursive form that the streaming filters use. */
  lemma DecayedStep(seed: real, ys: seq<real>, y: real, a: real)
    ensures Decayed(seed, ys + [y], a) == Mix(a, y, Decayed(seed, ys, a))
  {
    AgedSumStep(ys, y, a, |ys|);
    var p, s := Power(1.0 - a, |ys|), AgedSum(ys, a, |ys|);
    TimesScale(1.0 - a, p, seed);
    TimesSum(1.0 - a, Times(p, seed), s);
    assert Weight(a, 0) == Times(a, 1.0) == a;
    assert AgedSum(ys + [y], a, |ys| + 1) == AgedSum(ys + [y], a, |ys|) + Times(Weight(a, 0), y);
  }

  lemma DecayedSeed(seed: real, a: real)
    ensures Decayed(seed, [], a) == seed
  {
    assert Power(1.0 - a, 0) == 1.0;
    assert Times(1.0, seed) == seed;
  }

  lemma SmoothedStep(seen: seq<real>, x: real, k: nat, a: real)
    requires 0 < k <= |seen|
    ensures Smoothed(seen + [x], k, a) == Mix(a, x, Smoothed(seen, k, a))
  {
    SmoothedIs(seen, k, a);
    SmoothedIs(seen + [x], k, a);
    assert (seen + [x])[k..] == seen[k..] + [x] && (seen + [x])[..k] == seen[..k];
    DecayedStep(Mean(seen[..k]), seen[k..], x, a);
  }

  lemma SmoothedSeed(seen: seq<real>, a: real)
    requires |seen| > 0
    ensures Smoothed(seen, |seen|, a) == Mean(seen)
  {
    SmoothedIs(seen, |seen|, a);
    assert seen[..|seen|] == seen && seen[|seen|..] == [];
    DecayedSeed(Mean(seen), a);
  }

  lemma MeanOfOne(x: real)
    ensures Mean([x]) == x
  {
    assert Front([x]) == [] && Sum([]) == 0.0 && Sum([x]) == x;
  }

  class Ema {
    const len: nat
    const alpha: real
    var value: Option<real>
    ghost var seen: seq<real>

    ghost predicate Valid()
      reads this
    {
      var ok := len >= 1 && alpha == EmaAlpha(len) && value == EmaAt(seen, len);
      ok
    }

    constructor (len: nat)
      ensures Valid() && this.len == (if len < 1 then 1 else len) && seen == []
    {
      this.len := if len < 1 then 1 else len;
      this.alpha := 2.0 / ((if len < 1 then 1 else len) as real + 1.0);
      this.value := None;
      this.seen := [];
    }

    method Update(x: real) returns (r: Option<real>)
      requires Valid()
      modifies this
      ensures Valid() && seen == old(seen) + [x] && r == EmaAt(seen, len)
    {
      if value.None? {
        value := Some(x);
        assert seen + [x] == [x];
        SmoothedSeed([x], alpha);
        MeanOfOne(x);
      } else {
        SmoothedStep(seen, x, 1, alpha);
        value := Some(Mix(alpha, x, value.value));
      }
      seen := seen + [x];
      r := value;
    }
  }

  /** The first value of the running mean is its seed. */
  lemma RmaSeed(all: seq<real>, len: nat)
    requires len >= 1 && |all| <= len
    ensures RmaAt(all, len) == SmaAt(all, len)
  {
    if |all| == len {
      SmoothedSeed(all, Share(len));
      NewestMeanIs(all, len);
      assert Newest(all, len) == all;
    }
  }

  lemma RmaStep(seen: seq<real>, x: real, len: nat)
    requires len >= 1 && |seen| >= len
    ensures RmaAt(seen + [x], len) == Some(Mix(Share(len), x, RmaAt(seen, len).value))
  {
    SmoothedStep(seen, x, len, Share(len));
  }

  class Rma {
    const len: nat
    const alpha: real
    const seed: Sma
    var value: Option<real>
    ghost var seen: seq<real>

    ghost predicate Valid()
      reads this, seed.w
    {
      var ok :=
        && len >= 1 && alpha == Share(len) && seed.w.len == len && seed.Valid()
        && value == RmaAt(seen, len)
        && (|seen| < len ==> seed.Seen() == seen);
      ok
    }

    constructor (len: nat)
      ensures Valid() && fresh(seed.w) && this.len == (if len < 1 then 1 else len) && seen == []
    {
      this.len := if len < 1 then 1 else len;
      this.alpha := Share(if len < 1 then 1 else len);
      this.seed := new Sma(len);
      this.value := None;
      this.seen := [];
    }

    method Update(x: real) returns (r: Option<real>)
      requires Valid()
      modifies this, seed.w
      ensures Valid() && seen == old(seen) + [x] && r == RmaAt(seen, len)
    {
      if value.Some? {
        RmaStep(seen, x, len);
        value := Some(Mix(alpha, x, value.value));
      } else {
        RmaSeed(seen + [x], len);
        value := seed.Update(x);
      }
      seen := seen + [x];
      r := value;
    }
  }

  lemma {:induction false} SampleAppend(ss: seq<Sample>, x: real, vol: real)
    ensures Products(ss + [Sample(x, vol)]) == Products(ss) + [Times(x, vol)]
    ensures Volumes(ss + [Sample(x, vol)]) == Volumes(ss) + [vol]
  {
    assert Front(ss + [Sample(x, vol)]) == ss;
  }

  class Vwma {
    const weighted: Sma
    const volume: Sma
    const len: nat
    ghost const repr: set<object>
    ghost var seen: seq<Sample>

    ghost predicate Valid()
      reads this, repr
    {
      var ok :=
        && repr == {this, weighted.w, volume.w} && weighted.w != volume.w
        && weighted.Valid() && volume.Valid() && len >= 1 && weighted.w.len == len && volume.w.len == len
        && weighted.Seen() == Products(seen) && volume.Seen() == Volumes(seen);
      ok
    }

    constructor (len: nat)
      ensures Valid() && fresh(repr) && this.len == Max(len, 1) && seen == []
    {
      this.len := if len < 1 then 1 else len;
      var a := new Sma(len);
      var b := new Sma(len);
      this.weighted := a;
      this.volume := b;
      this.seen := [];
      this.repr := {this, a.w, b.w};
    }

    method Update(x: real, vol: real) returns (r: Option<real>)
      requires Valid()
      modifies repr
      ensures Valid() && seen == old(seen) + [Sample(x, vol)] && r == VwmaAt(seen, len)
    {
      var a := weighted.Update(Times(x, vol));
      var b := volume.Update(vol);
      SampleAppend(seen, x, vol);
      seen := seen + [Sample(x, vol)];
      r := Ratio(a, b);
    }
  }

  class Hma {
    const len: nat
    const half: Wma
    const full: Wma
    const out: Wma
    ghost const repr: set<object>

    ghost predicate Valid()
      reads repr
    {
      var ok :=
        && repr == {half.w, full.w, out.w} && half.w != full.w && half.w != out.w && full.w != out.w
        && len >= 2 && half.w.len == len / 2 && full.w.len == len && out.w.len == RoundSqrt(len)
        && half.Seen() == full.Seen() && out.Seen() == HullInputs(full.Seen(), len)
        && half.Valid() && full.Valid() && out.Valid();
      ok
    }

    ghost function Seen(): seq<real>
      reads full.w
    {
      full.Seen()
    }

    constructor (len: nat)
      ensures Valid() && fresh(repr) && this.len == Max(len, 2) && Seen() == []
    {
      var l := if len < 2 then 2 else len;
      var half := new Wma(l / 2);
      var full := new Wma(l);
      var out := new Wma(RoundSqrt(l));
      this.len, this.half, this.full, this.out := l, half, full, out;
      this.repr := {half.w, full.w, out.w};
    }

    method Update(x: real) returns (r: Option<real>)
      requires Valid()
      modifies repr
      ensures Valid() && Seen() == old(Seen()) + [x] && r == HmaAt(Seen(), len)
    {
      HullAppend(full.Seen(), x, len);
      var h := half.Update(x);
      var f := full.Update(x);
      HullInputOf(h, f);
      r := None;
      if h.Some? && f.Some? {
        r := out.Update(TwiceLess(h.value, f.value));
      }
    }
  }

  class Llama {
    const len: nat
    const mean: Sma
    const history: Window
    ghost const repr: set<object>

    ghost predicate Valid()
      reads repr
    {
      var ok :=
        && repr == {mean.w, history} && mean.w != history
        && len >= 1 && mean.w.len == len && history.len == len + 1 && mean.Seen() == history.seen
        && mean.Valid() && history.Valid();
      ok
    }

    ghost function Seen(): seq<real>
      reads history
    {
      history.seen
    }

    constructor (len: nat)
      ensures Valid() && fresh(repr) && this.len == Max(len, 1) && Seen() == []
    {
      var l := if len < 1 then 1 else len;
      var mean := new Sma(l);
      var history := new Window(l + 1);
      this.len, this.mean, this.history := l, mean, history;
      this.repr := {mean.w, history};
    }

    method Update(x: real) returns (r: Option<real>)
      requires Valid()
      modifies repr
      ensures Valid() && Seen() == old(Seen()) + [x] && r == LlamaAt(Seen(), len)
    {
      var m := mean.Update(x);
      var full := history.Push(x);
      r := None;
      if m.Some? && full {
        ExtendedIs(Seen(), len);
        assert history.buf[0] == Seen()[|Seen()| - 1 - len];
        r := Some(Ahead(m.value, x, history.buf[0], len));
      }
    }
  }

  lemma MixStep(g: real, x: real, e: real)
    ensures e + Times(g, x - e) == Mix(g, x, e) && (x == e ==> Mix(g, x, e) == x)
  {
  }

  class Kalman {
    const q: real
    var est: Option<real>
    var err: real
    ghost var seen: seq<Option<real>>

    ghost predicate Valid()
      reads this
    {
      var ok := q > 0.0 && est == KalmanAt(seen, q) && err == Gain(|seen|, q);
      ok
    }

    constructor (len: nat)
      ensures Valid() && q == Share(if len < 1 then 1 else len) && seen == []
    {
      this.q := Share(if len < 1 then 1 else len);
      this.est := None;
      this.err := 1.0;
      this.seen := [];
    }

    method Update(x: Option<real>) returns (r: Option<real>)
      requires Valid()
      modifies this
      ensures Valid() && seen == old(seen) + [x] && r == KalmanAt(seen, q)
    {
      var pred := err + q;
      var gain := GainOf(pred);
      var e := if est.Some? then est else x;
      assert Front(seen + [x]) == seen;
      assert gain == Gain(|seen| + 1, q);
      if e.Some? && x.Some? {
        MixStep(gain, x.value, e.value);
        est := Some(e.value + Times(gain, x.value - e.value));
      } else {
        est := None;
      }
      GainInUnit(pred);
      err := Times(1.0 - gain, pred);
      seen := seen + [x];
      r := est;
    }
  }
}
