/** The history resampler (`crates/kite-adapter/src/http/historical.rs`). */
module Historical {
  import opened Common

  const IST_OFFSET: int := 19_800

  /** A parsed candle time: epoch seconds, nanoseconds within the second, zone offset. */
  datatype Time = Time(epoch: int, nanos: nat, offset: int)

  /** `time` is None when the timestamp text does not parse. */
  datatype Candle = Candle(time: Option<Time>, open: real, high: real, low: real, close: real, volume: nat, oi: nat)

  datatype KiteInterval = Minute | ThreeMinute | FiveMinute | TenMinute | FifteenMinute | ThirtyMinute {
    function Minutes(): nat {
      match this
      case Minute => 1
      case ThreeMinute => 3
      case FiveMinute => 5
      case TenMinute => 10
      case FifteenMinute => 15
      case ThirtyMinute => 30
    }

    function Native(): Interval {
      Interval(Minutes(), this)
    }
  }

  datatype Interval = Interval(minutes: nat, source: KiteInterval)

  datatype IntervalFault = OddSize | NotBuildable

  /** `Interval::built_from`: the sizes that line up with the IST clock and the source. */
  function BuiltFrom(minutes: nat, source: KiteInterval): (r: Result<Interval, IntervalFault>)
    ensures r.Ok? ==> r.value == Interval(minutes, source) && Usable(r.value)
    ensures r.Ok? <==> minutes in {1, 2, 3, 5, 6, 10, 15, 30} && minutes % source.Minutes() == 0
    ensures r == Err(OddSize) <==> minutes !in {1, 2, 3, 5, 6, 10, 15, 30}
  {
    if minutes > 0 && 30 % minutes == 0 then
      if minutes % source.Minutes() == 0 then Ok(Interval(minutes, source)) else Err(NotBuildable)
    else Err(OddSize)
  }

  ghost predicate Usable(iv: Interval) {
    iv.minutes > 0 && 30 % iv.minutes == 0 && iv.minutes % iv.source.Minutes() == 0
  }

  // ---------------------------------------------------------------- aggregation

  ghost predicate Timed(cs: seq<Candle>) {
    forall i :: 0 <= i < |cs| ==> cs[i].time.Some?
  }

  ghost function Slot(c: Candle, step: int): int
    requires step > 0 && c.time.Some?
  {
    Bucket(c.time.value.epoch, step)
  }

  /** The first candle of a bucket, stamped with the bucket's start. */
  ghost function Opened(c: Candle, step: int): Candle
    requires step > 0 && c.time.Some?
  {
    c.(time := Some(Time(Slot(c, step), 0, c.time.value.offset)))
  }

  /** One more candle `c` of the bucket that `a` is being built for. */
  function Merged(a: Candle, c: Candle): Candle {
    Candle(a.time, a.open, RMax(a.high, c.high), RMin(a.low, c.low), c.close, a.volume + c.volume, c.oi)
  }

  /** What `aggregate` builds: neighbours of one bucket merged, in order. */
  ghost function Aggregated(cs: seq<Candle>, step: int): (out: seq<Candle>)
    requires step > 0 && Timed(cs)
    ensures Timed(out) && |out| <= |cs| && (|cs| > 0 ==> |out| > 0)
    ensures |cs| > 0 ==> Slot(Last(out), step) == Slot(Last(cs), step)
    ensures |cs| > 0 ==> Last(out).time.value.epoch == Slot(Last(cs), step)
  {
    if |cs| == 0 then [] else Appended(Aggregated(Front(cs), step), Last(cs), step)
  }

  /** One candle added to an aggregation. */
  ghost function Appended(out: seq<Candle>, c: Candle, step: int): (r: seq<Candle>)
    requires step > 0 && Timed(out) && c.time.Some?
    ensures Timed(r) && |out| <= |r| <= |out| + 1 && |r| > 0
    ensures Slot(Last(r), step) == Slot(c, step)
    ensures |out| > 0 && Last(out).time.value.epoch == Slot(Last(out), step) ==>
            Last(r).time.value.epoch == Slot(c, step)
    ensures |out| == 0 ==> Last(r).time.value.epoch == Slot(c, step)
  {
    BucketAligned(c.time.value.epoch, step);
    if |out| > 0 && Slot(Last(out), step) == Slot(c, step)
    then Front(out) + [Merged(Last(out), c)]
    else out + [Opened(c, step)]
  }

  datatype TimeFault = BadTime

  lemma {:induction false} AggregatedGrows(cs: seq<Candle>, i: nat, step: int)
    requires step > 0 && i < |cs| && Timed(cs[..i]) && cs[i].time.Some?
    ensures Timed(cs[..i + 1])
    ensures Aggregated(cs[..i + 1], step) == Appended(Aggregated(cs[..i], step), cs[i], step)
  {
    assert forall j :: 0 <= j < i ==> cs[..i + 1][j] == cs[..i][j];
    assert Front(cs[..i + 1]) == cs[..i];
  }

  /** `aggregate`: one pass with the open bucket in `current`. */
  method Aggregate(cs: seq<Candle>, iv: Interval) returns (r: Result<seq<Candle>, TimeFault>)
    requires Usable(iv)
    ensures r.Ok? <==> Timed(cs)
    ensures r.Ok? ==> r.value == Aggregated(cs, iv.minutes * 60)
  {
    var step := iv.minutes * 60;
    var out: seq<Candle> := [];
    var current: Option<int> := None;
    for i := 0 to |cs|
      invariant Timed(cs[..i])
      invariant out == Aggregated(cs[..i], step)
      invariant current == if i == 0 then None else Some(Slot(Last(out), step))
    {
      var c := cs[i];
      if c.time.None? {
        return Err(BadTime);
      }
      AggregatedGrows(cs, i, step);
      var bucket := BucketOf(c.time.value.epoch, step);
      if current == Some(bucket) {
        var agg := out[|out| - 1];
        agg := agg.(high := RMax(agg.high, c.high), low := RMin(agg.low, c.low), close := c.close,
                    volume := agg.volume + c.volume, oi := c.oi);
        assert out[..|out| - 1] + [agg] == Appended(out, c, step);
        out := out[..|out| - 1] + [agg];
      } else {
        out := out + [c.(time := Some(Time(bucket, 0, c.time.value.offset)))];
        current := Some(bucket);
      }
    }
    assert cs[..|cs|] == cs;
    r := Ok(out);
  }

  /** Aggregating by `m` and then by a multiple of `m` is aggregating once: nothing depends on
      the size the history was fetched at. No order of the candles is assumed. */
  lemma {:induction false} AggregateComposes(cs: seq<Candle>, m: int, k: int)
    requires m > 0 && k > 0 && m * k > 0 && Timed(cs)
    ensures Aggregated(Aggregated(cs, m), m * k) == Aggregated(cs, m * k)
  {
    if |cs| > 0 {
      AggregateComposes(Front(cs), m, k);
      AppendComposes(Aggregated(Front(cs), m), Last(cs), m, k, m * k);
    }
  }

  lemma {:induction false} AppendComposes(fine: seq<Candle>, c: Candle, m: int, k: int, n: int)
    requires m > 0 && k > 0 && n == m * k > 0 && Timed(fine) && c.time.Some?
    requires |fine| > 0 ==> Last(fine).time.value.epoch == Slot(Last(fine), m)
    ensures Aggregated(Appended(fine, c, m), n) == Appended(Aggregated(fine, n), c, n)
  {
    BucketNest(c.time.value.epoch, m, k);
    if |fine| > 0 && Slot(Last(fine), m) == Slot(c, m) {
      assert Slot(Last(fine), n) == Slot(c, n);
      MergeComposes(fine, c, n);
    } else {
      OpenComposes(fine, c, m, n);
    }
  }

  lemma {:induction false} OpenComposes(fine: seq<Candle>, c: Candle, m: int, n: int)
    requires m > 0 && n > 0 && Timed(fine) && c.time.Some? && Slot(Opened(c, m), n) == Slot(c, n)
    ensures Aggregated(fine + [Opened(c, m)], n) == Appended(Aggregated(fine, n), c, n)
  {
    assert Front(fine + [Opened(c, m)]) == fine;
  }

  /** Merging into the last fine bucket merges into the last coarse bucket. */
  lemma {:induction false} MergeComposes(fine: seq<Candle>, c: Candle, n: int)
    requires n > 0 && Timed(fine) && c.time.Some? && |fine| > 0 && Slot(Last(fine), n) == Slot(c, n)
    ensures Aggregated(Front(fine) + [Merged(Last(fine), c)], n) == Appended(Aggregated(fine, n), c, n)
  {
    var g := Merged(Last(fine), c);
    assert Front(Front(fine) + [g]) == Front(fine);
    AppendMerged(Aggregated(Front(fine), n), Last(fine), c, n);
  }

  lemma AppendSame(g: seq<Candle>, a: Candle, c: Candle, n: int)
    requires n > 0 && Timed(g) && a.time.Some? && c.time.Some? && Slot(a, n) == Slot(c, n)
    ensures Timed(g + [a]) && Appended(g + [a], c, n) == g + [Merged(a, c)]
  {
    assert Front(g + [a]) == g;
  }

  lemma AppendMerged(coarse: seq<Candle>, f: Candle, c: Candle, n: int)
    requires n > 0 && Timed(coarse) && f.time.Some? && c.time.Some? && Slot(f, n) == Slot(c, n)
    ensures Appended(coarse, Merged(f, c), n) == Appended(Appended(coarse, f, n), c, n)
  {
    if |coarse| > 0 && Slot(Last(coarse), n) == Slot(f, n) {
      var g, a := Front(coarse), Last(coarse);
      assert coarse == g + [a];
      AppendSame(g, a, f, n);
      AppendSame(g, Merged(a, f), c, n);
      AppendSame(g, a, Merged(f, c), n);
      MergedTwice(a, f, c);
    } else {
      AppendNew(coarse, f, n);
      BucketAligned(f.time.value.epoch, n);
      AppendSame(coarse, Opened(f, n), c, n);
      AppendNew(coarse, Merged(f, c), n);
    }
  }

  lemma AppendNew(coarse: seq<Candle>, f: Candle, n: int)
    requires n > 0 && Timed(coarse) && f.time.Some? && (|coarse| > 0 ==> Slot(Last(coarse), n) != Slot(f, n))
    ensures Appended(coarse, f, n) == coarse + [Opened(f, n)]
  {
  }

  lemma MergedTwice(a: Candle, f: Candle, c: Candle)
    ensures Merged(Merged(a, f), c) == Merged(a, Merged(f, c))
  {
  }

  function TotalVolume(cs: seq<Candle>): nat {
    if |cs| == 0 then 0 else TotalVolume(Front(cs)) + Last(cs).volume
  }

  /** `x` is the highest high of `cs`. */
  ghost predicate Peak(cs: seq<Candle>, x: real) {
    (exists i :: 0 <= i < |cs| && cs[i].high == x) && forall i :: 0 <= i < |cs| ==> cs[i].high <= x
  }

  ghost predicate Trough(cs: seq<Candle>, x: real) {
    (exists i :: 0 <= i < |cs| && cs[i].low == x) && forall i :: 0 <= i < |cs| ==> x <= cs[i].low
  }

  function HighOf(cs: seq<Candle>): real
    requires |cs| > 0
  {
    if |cs| == 1 then cs[0].high else RMax(HighOf(Front(cs)), Last(cs).high)
  }

  function LowOf(cs: seq<Candle>): real
    requires |cs| > 0
  {
    if |cs| == 1 then cs[0].low else RMin(LowOf(Front(cs)), Last(cs).low)
  }

  lemma {:induction false} ExtremesAreAttained(cs: seq<Candle>)
    requires |cs| > 0
    ensures Peak(cs, HighOf(cs)) && Trough(cs, LowOf(cs))
  {
    if |cs| == 1 {
      assert cs[0].high == HighOf(cs) && cs[0].low == LowOf(cs);
    } else {
      var f := Front(cs);
      ExtremesAreAttained(f);
      var i :| 0 <= i < |f| && f[i].high == HighOf(f);
      var j :| 0 <= j < |f| && f[j].low == LowOf(f);
      assert cs[i] == f[i] && cs[j] == f[j];
      assert forall k :: 0 <= k < |f| ==> cs[k] == f[k];
    }
  }

  lemma {:induction false} AppendedVolume(out: seq<Candle>, c: Candle, step: int)
    requires step > 0 && Timed(out) && c.time.Some?
    ensures TotalVolume(Appended(out, c, step)) == TotalVolume(out) + c.volume
  {
    if |out| > 0 {
      assert Front(Front(out) + [Merged(Last(out), c)]) == Front(out);
    }
    assert Front(out + [Opened(c, step)]) == out;
  }

  lemma {:induction false} HighLowMore(cs: seq<Candle>, c: Candle)
    requires |cs| > 0
    ensures HighOf(cs + [c]) == RMax(HighOf(cs), c.high) && LowOf(cs + [c]) == RMin(LowOf(cs), c.low)
  {
    assert Front(cs + [c]) == cs;
  }

  lemma {:induction false} HighLowMerged(f: seq<Candle>, l: Candle, c: Candle)
    ensures HighOf(f + [Merged(l, c)]) == RMax(HighOf(f + [l]), c.high)
    ensures LowOf(f + [Merged(l, c)]) == RMin(LowOf(f + [l]), c.low)
  {
    if |f| > 0 {
      HighLowMore(f, l);
      HighLowMore(f, Merged(l, c));
    } else {
      HighLowOne(l);
      HighLowOne(Merged(l, c));
      assert f + [l] == [l] && f + [Merged(l, c)] == [Merged(l, c)];
    }
  }

  lemma HighLowOne(c: Candle)
    ensures HighOf([c]) == c.high && LowOf([c]) == c.low
  {
  }

  /** Highest high and lowest low, together. */
  function Span(cs: seq<Candle>): (real, real)
    requires |cs| > 0
  {
    (HighOf(cs), LowOf(cs))
  }

  function Wider(s: (real, real), c: Candle): (real, real) {
    (RMax(s.0, c.high), RMin(s.1, c.low))
  }

  lemma SpanSame(g: seq<Candle>, a: Candle, c: Candle, step: int)
    requires step > 0 && Timed(g) && a.time.Some? && c.time.Some? && Slot(a, step) == Slot(c, step)
    ensures Span(Appended(g + [a], c, step)) == Wider(Span(g + [a]), c)
  {
    AppendSame(g, a, c, step);
    HighLowMerged(g, a, c);
  }

  lemma SpanNew(out: seq<Candle>, c: Candle, step: int)
    requires step > 0 && Timed(out) && c.time.Some? && |out| > 0 && Slot(Last(out), step) != Slot(c, step)
    ensures Span(Appended(out, c, step)) == Wider(Span(out), c)
  {
    AppendNew(out, c, step);
    HighLowMore(out, Opened(c, step));
  }

  lemma SpanFirst(c: Candle, step: int)
    requires step > 0 && c.time.Some?
    ensures Span(Appended([], c, step)) == (c.high, c.low)
  {
    HighLowOne(Opened(c, step));
    assert [] + [Opened(c, step)] == [Opened(c, step)];
  }

  lemma AppendedSpan(out: seq<Candle>, c: Candle, step: int)
    requires step > 0 && Timed(out) && c.time.Some?
    ensures Span(Appended(out, c, step)) == if |out| == 0 then (c.high, c.low) else Wider(Span(out), c)
  {
    if |out| == 0 {
      SpanFirst(c, step);
      assert out == [];
    } else if Slot(Last(out), step) == Slot(c, step) {
      assert out == Front(out) + [Last(out)];
      SpanSame(Front(out), Last(out), c, step);
    } else {
      SpanNew(out, c, step);
    }
  }

  lemma AppendedEnds(out: seq<Candle>, c: Candle, step: int)
    requires step > 0 && Timed(out) && c.time.Some?
    ensures var r := Appended(out, c, step);
            && r[0].open == (if |out| == 0 then c.open else out[0].open)
            && Last(r).close == c.close && Last(r).oi == c.oi
  {
  }

  /** Aggregation keeps the total volume, the highest high, the lowest low, the first open,
      and the last close and open interest. */
  lemma {:induction false} AggregateConserves(cs: seq<Candle>, step: int)
    requires step > 0 && Timed(cs)
    ensures TotalVolume(Aggregated(cs, step)) == TotalVolume(cs)
    ensures |cs| > 0 ==>
              var out := Aggregated(cs, step);
              && HighOf(out) == HighOf(cs) && LowOf(out) == LowOf(cs)
              && out[0].open == cs[0].open && Last(out).close == Last(cs).close && Last(out).oi == Last(cs).oi
  {
    if |cs| > 0 {
      AggregateConserves(Front(cs), step);
      var out, c := Aggregated(Front(cs), step), Last(cs);
      AppendedVolume(out, c, step);
      AppendedSpan(out, c, step);
      AppendedEnds(out, c, step);
      if |cs| > 1 {
        HighLowMore(Front(cs), c);
        assert Front(cs) + [c] == cs;
      }
    }
  }

  // ----------------------------------------------------------------- validation

  datatype CandleFault = NoCandles | UnparsedTime | NotIst | Misaligned | Unordered | BadPrice | BadOhlc

  ghost predicate After(t: Time, p: Time) {
    t.epoch > p.epoch || (t.epoch == p.epoch && t.nanos > p.nanos)
  }

  ghost predicate WellTimed(t: Time, minutes: nat)
    requires minutes > 0
  {
    && t.offset == IST_OFFSET
    && (t.epoch + t.offset) / 60 % 60 % minutes == 0
    && (t.epoch + t.offset) % 60 == 0
    && t.nanos == 0
  }

  ghost predicate GoodPrices(c: Candle) {
    c.open > 0.0 && c.high > 0.0 && c.low > 0.0 && c.close > 0.0
  }

  ghost predicate GoodShape(c: Candle) {
    c.low <= RMin(c.open, c.close) && c.high >= RMax(c.open, c.close) && c.low <= c.high
  }

  /** Candles on the interval's IST grid, strictly later one by one, with sane OHLC. */
  ghost predicate Valid(cs: seq<Candle>, minutes: nat)
    requires minutes > 0
  {
    && Timed(cs)
    && (forall i :: 0 <= i < |cs| ==> WellTimed(cs[i].time.value, minutes) && GoodPrices(cs[i]) && GoodShape(cs[i]))
    && (forall i :: 0 < i < |cs| ==> After(cs[i].time.value, cs[i - 1].time.value))
  }

  /** `validate_for`: the first violated rule is the error; success is exactly validity. */
  method ValidateFor(cs: seq<Candle>, iv: Interval) returns (r: Result<(), CandleFault>)
    requires iv.minutes > 0
    ensures r.Ok? <==> |cs| > 0 && Valid(cs, iv.minutes)
    ensures r == Err(NoCandles) <==> |cs| == 0
    ensures r.Err? && |cs| > 0 ==>
              exists i :: && 0 <= i < |cs| && Valid(cs[..i], iv.minutes)
                          && r.error == FirstFault(cs, i, iv.minutes).GetOr(NoCandles)
                          && FirstFault(cs, i, iv.minutes).Some?
  {
    if |cs| == 0 {
      return Err(NoCandles);
    }
    var previous: Option<Time> := None;
    for i := 0 to |cs|
      invariant Valid(cs[..i], iv.minutes)
      invariant previous == if i == 0 then None else cs[i - 1].time
    {
      var c := cs[i];
      if c.time.None? {
        assert FirstFault(cs, i, iv.minutes) == Some(UnparsedTime);
        return Err(UnparsedTime);
      }
      var t := c.time.value;
      if t.offset != IST_OFFSET {
        assert FirstFault(cs, i, iv.minutes) == Some(NotIst);
        return Err(NotIst);
      }
      if !((t.epoch + t.offset) / 60 % 60 % iv.minutes == 0 && (t.epoch + t.offset) % 60 == 0 && t.nanos == 0) {
        assert FirstFault(cs, i, iv.minutes) == Some(Misaligned);
        return Err(Misaligned);
      }
      if previous.Some? && !(t.epoch > previous.value.epoch
          || (t.epoch == previous.value.epoch && t.nanos > previous.value.nanos)) {
        assert FirstFault(cs, i, iv.minutes) == Some(Unordered);
        return Err(Unordered);
      }
      previous := Some(t);
      if !(c.open > 0.0 && c.high > 0.0 && c.low > 0.0 && c.close > 0.0) {
        assert FirstFault(cs, i, iv.minutes) == Some(BadPrice);
        return Err(BadPrice);
      }
      if !(c.low <= RMin(c.open, c.close) && c.high >= RMax(c.open, c.close) && c.low <= c.high) {
        assert FirstFault(cs, i, iv.minutes) == Some(BadOhlc);
        return Err(BadOhlc);
      }
      assert forall j :: 0 <= j < i ==> cs[..i + 1][j] == cs[..i][j];
    }
    assert cs[..|cs|] == cs;
    r := Ok(());
  }

  /** Which rule candle `i` breaks first, if any. */
  ghost function FirstFault(cs: seq<Candle>, i: nat, minutes: nat): Option<CandleFault>
    requires i < |cs| && minutes > 0 && (i > 0 ==> cs[i - 1].time.Some?)
  {
    if cs[i].time.None? then Some(UnparsedTime)
    else
      var t := cs[i].time.value;
      if t.offset != IST_OFFSET then Some(NotIst)
      else if !WellTimed(t, minutes) then Some(Misaligned)
      else if i > 0 && !After(t, cs[i - 1].time.value) then Some(Unordered)
      else if !GoodPrices(cs[i]) then Some(BadPrice)
      else if !GoodShape(cs[i]) then Some(BadOhlc)
      else None
  }

  /** Bucket starts of every allowed size fall on the IST minute grid: 330 minutes (+05:30) is
      a whole number of buckets. */
  lemma BucketOnIstGrid(epoch: int, minutes: nat)
    requires minutes > 0 && 30 % minutes == 0
    ensures WellTimed(Time(Bucket(epoch, minutes * 60), 0, IST_OFFSET), minutes)
  {
    var q := epoch / (minutes * 60);
    BucketIs(epoch, minutes * 60);
    var b := Bucket(epoch, minutes * 60);
    assert b == 60 * (q * minutes) by {
      MulAssoc(q, minutes, 60);
    }
    var x := q * minutes + 330;
    assert b + IST_OFFSET == 60 * x;
    MinuteGrid(q, minutes);
  }

  lemma MinuteGrid(q: int, minutes: nat)
    requires minutes > 0 && 30 % minutes == 0
    ensures (q * minutes + 330) % 60 % minutes == 0
  {
    var k := 30 / minutes;
    assert 30 == k * minutes;
    var x := q * minutes + 330;
    Factor(q, 11 * k, minutes);
    assert (11 * k) * minutes == 330 && x == (q + 11 * k) * minutes;
    assert (2 * k) * minutes == 60;
    MultipleStays(q + 11 * k, 2 * k, minutes, x / 60);
  }

  lemma Factor(a: int, b: int, m: int)
    ensures a * m + b * m == (a + b) * m && a * m - b * m == (a - b) * m
  {
  }

  lemma Swap(c: int, m: int, j: int)
    ensures (c * m) * j == (c * j) * m
  {
  }

  /** Taking multiples of a multiple of `m` away from a multiple of `m` leaves a multiple of `m`. */
  lemma MultipleStays(a: int, c: int, m: int, j: int)
    requires m > 0
    ensures (a * m - (c * m) * j) % m == 0
  {
    Swap(c, m, j);
    Factor(a, c * j, m);
    DivMul(a - c * j, m);
  }

  /** Validated history aggregates to validated history: ordered, on the IST grid of the new
      size and with sane OHLC. */
  lemma {:induction false} AggregateStaysValid(cs: seq<Candle>, m: nat, minutes: nat)
    requires m > 0 && minutes > 0 && 30 % minutes == 0
    requires Valid(cs, m)
    ensures Valid(Aggregated(cs, minutes * 60), minutes)
    ensures |cs| > 0 ==> |Aggregated(cs, minutes * 60)| > 0
  {
    if |cs| > 0 {
      var step := minutes * 60;
      var f := Front(cs);
      assert Valid(f, m) by {
        assert forall i :: 0 <= i < |f| ==> f[i] == cs[i];
      }
      AggregateStaysValid(f, m, minutes);
      var out := Aggregated(f, step);
      var c := Last(cs);
      assert c == cs[|cs| - 1];
      BucketOnIstGrid(c.time.value.epoch, minutes);
      var r := Aggregated(cs, step);
      assert r == Appended(out, c, step);
      if |out| > 0 {
        assert Last(f) == cs[|cs| - 2];
        BucketMono(Last(f).time.value.epoch, c.time.value.epoch, step);
      }
      forall i | 0 < i < |r|
        ensures After(r[i].time.value, r[i - 1].time.value)
      {
        if i < |r| - 1 || |r| == |out| {
          assert r[i].time == out[i].time && r[i - 1].time == out[i - 1].time;
        } else {
          assert r[i - 1] == Last(out);
        }
      }
      forall i | 0 <= i < |r|
        ensures WellTimed(r[i].time.value, minutes) && GoodPrices(r[i]) && GoodShape(r[i])
      {
        if i < |r| - 1 {
          assert r[i] == out[i];
        }
      }
    }
  }
}
