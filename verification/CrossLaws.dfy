/** What the pressure of a bar and the crossovers of the line mean. */
module CrossLaws {
  import opened Common
  import opened Filters
  import opened Readiness
  import opened LineLaws

  // ------------------------------------------------------------------- pressure

  ghost predicate Ohlc(b: Bar) {
    b.low <= b.open <= b.high && b.low <= b.close <= b.high && b.volume >= 0.0
  }

  lemma RatioTimes(x: real, y: real, v: real)
    requires y != 0.0
    ensures x / y * v * y == x * v
  {
    assert x / y * y == x;
    assert x / y * v * y == (x / y * y) * v;
  }

  /** A bar's pressure is to its volume what its body is to its range; a bar without range has none. */
  lemma RawIsBodyOverRange(b: Bar)
    ensures Raw(b) * (b.high - b.low) == if b.high == b.low then 0.0 else (b.close - b.open) * b.volume
    ensures b.high == b.low ==> Raw(b) == 0.0
  {
    if b.high != b.low {
      RatioTimes(b.close - b.open, b.high - b.low, b.volume);
    }
  }

  /** What is to `range` as a smaller number is to `v` is smaller. */
  lemma Below(x: real, p: real, y: real, q: real, range: real, v: real)
    requires range > 0.0 && v >= 0.0 && p <= q && x * range == p * v && y * range == q * v
    ensures x <= y
  {
    assert (q - p) * v >= 0.0;
    assert (y - x) * range >= 0.0;
  }

  lemma ScaledBound(r: real, range: real, body: real, v: real)
    requires range > 0.0 && -range <= body <= range && v >= 0.0 && r * range == body * v
    ensures -v <= r <= v && (body >= 0.0 ==> r >= 0.0) && (body <= 0.0 ==> r <= 0.0)
  {
    Below(r, body, v, range, range, v);
    Below(-v, -range, r, body, range, v);
    if body >= 0.0 {
      Below(0.0, 0.0, r, body, range, v);
    }
    if body <= 0.0 {
      Below(r, body, 0.0, 0.0, range, v);
    }
  }

  /** It is at most the volume, to the side of the body; a bar that opens at its low and closes at its high gives
      its whole volume. */
  lemma RawIsBounded(b: Bar)
    requires Ohlc(b)
    ensures -b.volume <= Raw(b) <= b.volume
    ensures (b.close >= b.open ==> Raw(b) >= 0.0) && (b.close <= b.open ==> Raw(b) <= 0.0)
    ensures b.open == b.low < b.high == b.close ==> Raw(b) == b.volume
    ensures b.close == b.low < b.high == b.open ==> Raw(b) == -b.volume
  {
    RawIsBodyOverRange(b);
    if b.high != b.low {
      var range, body := b.high - b.low, b.close - b.open;
      ScaledBound(Raw(b), range, body, b.volume);
      FullBody(Raw(b), range, body, b.volume);
    }
  }

  lemma FullBody(r: real, range: real, body: real, v: real)
    requires range > 0.0 && r * range == body * v
    ensures (body == range ==> r == v) && (body == -range ==> r == -v)
  {
    if body == range {
      Unscale(r, v, range);
    } else if body == -range {
      assert range * -v == -range * v;
      Unscale(r, -v, range);
    }
  }

  function VolumeOf(bars: seq<Bar>): real {
    if |bars| == 0 then 0.0 else VolumeOf(Front(bars)) + Last(bars).volume
  }

  ghost predicate AllOhlc(bars: seq<Bar>) {
    forall i :: 0 <= i < |bars| ==> Ohlc(bars[i])
  }

  ghost predicate AllUp(bars: seq<Bar>) {
    forall i :: 0 <= i < |bars| ==> bars[i].close >= bars[i].open
  }

  ghost predicate AllDown(bars: seq<Bar>) {
    forall i :: 0 <= i < |bars| ==> bars[i].close <= bars[i].open
  }

  lemma {:induction false} RawsOf(bars: seq<Bar>)
    ensures forall i :: 0 <= i < |bars| ==> Raws(bars)[i] == Raw(bars[i])
  {
    if |bars| > 0 {
      RawsOf(Front(bars));
    }
  }

  lemma {:induction false} NewestRaws(bars: seq<Bar>, len: nat)
    requires len <= |bars|
    ensures Newest(Raws(bars), len) == Raws(Newest(bars, len))
  {
    RawsOf(bars);
    RawsOf(Newest(bars, len));
  }

  lemma {:induction false} RawSumBounded(bars: seq<Bar>)
    requires AllOhlc(bars)
    ensures -VolumeOf(bars) <= Sum(Raws(bars)) <= VolumeOf(bars)
    ensures (AllUp(bars) ==> Sum(Raws(bars)) >= 0.0) && (AllDown(bars) ==> Sum(Raws(bars)) <= 0.0)
  {
    if |bars| > 0 {
      var f, b := Front(bars), Last(bars);
      assert forall i :: 0 <= i < |f| ==> f[i] == bars[i];
      assert b == bars[|bars| - 1];
      RawSumBounded(f);
      RawIsBounded(b);
      assert Front(Raws(bars)) == Raws(f) && Last(Raws(bars)) == Raw(b);
    }
  }

  /** The WVAD sum of bars with valid prices never exceeds their volume, and leans to the side of their bodies when
      all point the same way. */
  lemma {:induction false} WvadIsBounded(bars: seq<Bar>, len: nat)
    requires AllOhlc(bars) && len <= |bars|
    ensures WvadAt(bars, len).Some?
    ensures var v, last := WvadAt(bars, len).value, Newest(bars, len);
            && -VolumeOf(last) <= v <= VolumeOf(last)
            && (AllUp(last) ==> v >= 0.0) && (AllDown(last) ==> v <= 0.0)
  {
    var last := Newest(bars, len);
    assert forall i :: 0 <= i < len ==> last[i] == bars[|bars| - len + i];
    NewestRaws(bars, len);
    RawSumBounded(last);
  }

  /** One more bar adds its pressure to the sum and takes away that of the bar that leaves. */
  lemma {:induction false} WvadMoves(bars: seq<Bar>, b: Bar, len: nat)
    requires 0 < len <= |bars|
    ensures WvadAt(bars, len).Some? && WvadAt(bars + [b], len).Some?
    ensures WvadAt(bars + [b], len).value == WvadAt(bars, len).value + Raw(b) - Raw(bars[|bars| - len])
  {
    assert Front(bars + [b]) == bars;
    SlideSums(Raws(bars), Raw(b), len);
    RawsOf(bars);
  }

  // ----------------------------------------------------------------- crossovers

  /** The line and its signal exist after the first `n` bars. */
  ghost predicate Exists(bars: seq<Bar>, s: Settings, n: nat)
    requires ValidSettings(s) && n <= |bars|
  {
    LineAt(bars[..n], s).Some?
  }

  ghost predicate Over(bars: seq<Bar>, s: Settings, n: nat)
    requires ValidSettings(s) && n <= |bars|
  {
    Exists(bars, s, n) && LineAt(bars[..n], s).value.0 > LineAt(bars[..n], s).value.1
  }

  ghost predicate Under(bars: seq<Bar>, s: Settings, n: nat)
    requires ValidSettings(s) && n <= |bars|
  {
    Exists(bars, s, n) && LineAt(bars[..n], s).value.0 < LineAt(bars[..n], s).value.1
  }

  /** What `SignalLine.Update` answers for bar `n - 1`. */
  ghost predicate GoesUp(bars: seq<Bar>, s: Settings, n: nat)
    requires ValidSettings(s) && 0 < n <= |bars|
  {
    CrossedUp(Previous(bars[..n - 1], s), LineAt(bars[..n], s))
  }

  ghost predicate GoesDown(bars: seq<Bar>, s: Settings, n: nat)
    requires ValidSettings(s) && 0 < n <= |bars|
  {
    CrossedDown(Previous(bars[..n - 1], s), LineAt(bars[..n], s))
  }

  ghost predicate ExistsFrom(bars: seq<Bar>, s: Settings, i: nat, j: nat)
    requires ValidSettings(s) && i <= j <= |bars|
  {
    forall n :: i <= n <= j ==> Exists(bars, s, n)
  }

  /** A bar crosses up exactly when the line is over its signal and, one bar before, existed and was not; down
      exactly in the mirrored case; never both. */
  lemma CrossesExactly(bars: seq<Bar>, s: Settings, n: nat)
    requires ValidSettings(s) && 1 < n <= |bars|
    ensures GoesUp(bars, s, n) <==> Over(bars, s, n) && Exists(bars, s, n - 1) && !Over(bars, s, n - 1)
    ensures GoesDown(bars, s, n) <==> Under(bars, s, n) && Exists(bars, s, n - 1) && !Under(bars, s, n - 1)
    ensures !(GoesUp(bars, s, n) && GoesDown(bars, s, n))
  {
    assert |bars[..n - 1]| > 0;
  }

  /** The line never changes sides unseen: while it exists, it is over its signal after not being so only with a
      cross up in between, and under only with a cross down. */
  lemma {:induction false} NoUnseenCrossing(bars: seq<Bar>, s: Settings, i: nat, j: nat)
    requires ValidSettings(s) && 0 < i <= j <= |bars| && ExistsFrom(bars, s, i, j)
    ensures !Over(bars, s, i) && Over(bars, s, j) ==> exists n :: i < n <= j && GoesUp(bars, s, n)
    ensures !Under(bars, s, i) && Under(bars, s, j) ==> exists n :: i < n <= j && GoesDown(bars, s, n)
    decreases j - i
  {
    if i < j {
      assert Exists(bars, s, j) && Exists(bars, s, j - 1);
      NoUnseenCrossing(bars, s, i, j - 1);
      CrossesExactly(bars, s, j);
    }
  }
}
