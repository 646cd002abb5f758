/** What history must look like, which fetched candles fill a gap, and what a candle of the live stream carries:
    candle by candle. */
module HistoryLaws {
  import opened Common
  import opened Historical
  import opened Candles
  import opened Grouping
  import opened CandleRuns
  import opened CandleStream
  import Backfill

  // ------------------------------------------------------------------- valid history

  /** A candle of valid history: an IST time on a whole minute of the hour that the size divides, positive prices,
      none of them outside low and high. */
  predicate SoundCandle(c: Candle, minutes: nat)
    requires minutes > 0
  {
    && c.time.Some? && c.time.value.offset == 19800 && c.time.value.nanos == 0
    && (c.time.value.epoch + 19800) % 60 == 0 && ((c.time.value.epoch + 19800) / 60) % 60 % minutes == 0
    && 0.0 < c.low <= c.open <= c.high && c.low <= c.close <= c.high
  }

  ghost predicate AllSound(cs: seq<Candle>, minutes: nat)
    requires minutes > 0
  {
    forall i :: 0 <= i < |cs| ==> SoundCandle(cs[i], minutes)
  }

  lemma SoundIs(c: Candle, minutes: nat)
    requires minutes > 0
    ensures SoundCandle(c, minutes)
            <==> c.time.Some? && WellTimed(c.time.value, minutes) && GoodPrices(c) && GoodShape(c)
  {
  }

  /** History is valid exactly when each candle is sound and later than all before it. */
  lemma ValidExactly(cs: seq<Candle>, minutes: nat)
    requires minutes > 0
    ensures Historical.Valid(cs, minutes)
            <==> AllSound(cs, minutes) && forall i, j :: 0 <= i < j < |cs| ==> Earlier(cs[i], cs[j])
  {
    forall i | 0 <= i < |cs|
      ensures SoundCandle(cs[i], minutes)
              <==> && cs[i].time.Some? && WellTimed(cs[i].time.value, minutes) && GoodPrices(cs[i])
                   && GoodShape(cs[i])
    {
      SoundIs(cs[i], minutes);
    }
    if Historical.Valid(cs, minutes) {
      forall i, j | 0 <= i < j < |cs|
        ensures Earlier(cs[i], cs[j])
      {
        TimesRise(cs, minutes, i, j);
      }
    }
  }

  /** What a fault says of candle `i`. */
  predicate Says(f: CandleFault, cs: seq<Candle>, i: nat, minutes: nat)
    requires minutes > 0 && i < |cs|
  {
    var c := cs[i];
    match f
    case NoCandles => false
    case UnparsedTime => c.time.None?
    case NotIst => c.time.Some? && c.time.value.offset != 19800
    case Misaligned =>
      && c.time.Some?
      && (|| (c.time.value.epoch + 19800) % 60 != 0 || ((c.time.value.epoch + 19800) / 60) % 60 % minutes != 0
          || c.time.value.nanos != 0)
    case Unordered => i > 0 && c.time.Some? && cs[i - 1].time.Some?
        && c.time.value.epoch <= cs[i - 1].time.value.epoch
    case BadPrice => c.open <= 0.0 || c.high <= 0.0 || c.low <= 0.0 || c.close <= 0.0
    case BadOhlc => c.low > c.high || c.open < c.low || c.open > c.high || c.close < c.low || c.close > c.high
  }

  /** The fault found at a candle is true of it. */
  lemma FaultsAreTrue(cs: seq<Candle>, i: nat, minutes: nat)
    requires minutes > 0 && i < |cs| && (i > 0 ==> cs[i - 1].time.Some?) && FirstFault(cs, i, minutes).Some?
    ensures Says(FirstFault(cs, i, minutes).value, cs, i, minutes)
  {
  }

  lemma {:induction false} TimesRise(cs: seq<Candle>, minutes: nat, i: nat, j: nat)
    requires minutes > 0 && i < j < |cs| && Historical.Valid(cs, minutes)
    ensures Earlier(cs[i], cs[j])
    decreases j - i
  {
    assert Historical.After(cs[j].time.value, cs[j - 1].time.value);
    assert WellTimed(cs[j].time.value, minutes) && WellTimed(cs[j - 1].time.value, minutes);
    if i < j - 1 {
      TimesRise(cs, minutes, i, j - 1);
    }
  }

  // ------------------------------------------------------------------ chosen candles

  /** The candle closes in the gap, at least 45 s ago. */
  predicate FillsGap(c: Candle, from: int, to: int, now: int, iv: Interval) {
    && c.time.Some?
    && var close := (c.time.value.epoch + 60 * iv.minutes) * 1_000_000_000 + c.time.value.nanos;
       from < close <= to && close <= Max(now - 45_000_000_000, 0)
  }

  /** The candles of `cs` that fill the gap, in their order. */
  function Filling(cs: seq<Candle>, from: int, to: int, now: int, iv: Interval): seq<Candle> {
    if |cs| == 0 then []
    else Filling(Front(cs), from, to, now, iv) + (if FillsGap(Last(cs), from, to, now, iv) then [Last(cs)] else [])
  }

  lemma {:induction false} GapOfFinal(cs: seq<Candle>, from: int, to: int, now: int, iv: Interval)
    requires Backfill.Closable(cs, iv)
    ensures Backfill.Chosen(cs, from, to, now, iv) == Filling(cs, from, to, now, iv)
  {
    if |cs| > 0 {
      var f, c := Front(cs), Last(cs);
      assert f + [c] == cs;
      GapOfFinal(f, from, to, now, iv);
      LastChosen(f, c, from, to, now, iv);
      assert Backfill.CloseNs(c, iv).Some?;
    }
  }

  lemma {:induction false} LastChosen(f: seq<Candle>, c: Candle, from: int, to: int, now: int, iv: Interval)
    requires Backfill.Closable(f + [c], iv) && Backfill.Closable(f, iv) && Backfill.CloseNs(c, iv).Some?
    ensures var close := Backfill.CloseNs(c, iv).value;
            Backfill.Chosen(f + [c], from, to, now, iv)
            == Backfill.Chosen(f, from, to, now, iv)
               + (if from < close <= to && Backfill.IsFinal(c, now, iv) then [c] else [])
  {
    assert Front(f + [c]) == f;
    var fin := Backfill.FinalPart(f, now, iv);
    assert Front(fin + [c]) == fin;
    assert fin + [] == fin;
  }

  /** A selection that succeeds returns exactly the candles, in their order, that close in the gap at least 45 s
      ago, and history was valid. */
  lemma {:induction false} SelectedExactly(raw: seq<Candle>, from: int, to: int, now: int, iv: Interval)
    requires iv.minutes > 0 && Backfill.Selectable(raw, from, to, now, iv)
    ensures Backfill.Chosen(raw, from, to, now, iv) == Filling(raw, from, to, now, iv)
    ensures AllSound(raw, iv.minutes)
  {
    GapOfFinal(raw, from, to, now, iv);
    ValidExactly(raw, iv.minutes);
  }

  // -------------------------------------------------------------- candles handed out

  /** The candle is the bar: its start in UTC, its prices, volume and open interest. */
  predicate IsBar(c: Candle, b: Bar) {
    && c.time == Some(Time(b.start, 0, 0)) && (c.open, c.high, c.low, c.close) == (b.open, b.high, b.low, b.close)
    && c.volume == b.volume && c.oi == b.oi
  }

  /** In every run the candles handed out are the finished bars, one for one, but for a first one joined part-way. */
  lemma {:induction false} CandlesAreBars(lc: int, step: int, es: seq<Event>, i: nat)
    requires step > 0 && Exec(lc, step, es).Some? && i < |Exec(lc, step, es).value.out|
    ensures Sane(PacketsOf(es))
    ensures var r := Exec(lc, step, es).value;
            var k := if JoinedPartWay(PacketsOf(es), step) then 1 else 0;
            |r.out| + k == |r.finished| && IsBar(r.out[i], r.finished[i + k])
  {
    StreamIsGroupBy(lc, step, es);
  }
}
