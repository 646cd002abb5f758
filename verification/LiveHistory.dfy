/** Two implementations that must agree: the live candle stream and the history resampler. */
module LiveHistory {
  import opened Common
  import H = Historical
  import opened Historical
  import opened Candles
  import opened Grouping
  import opened CandleRuns
  import opened CandleStream

  function TradeCandles(ts: seq<Trade>): (r: seq<Candle>)
    ensures |r| == |ts| && forall i :: 0 <= i < |r| ==> r[i] == TradeCandle(ts[i])
  {
    if |ts| == 0 then [] else TradeCandles(Front(ts)) + [TradeCandle(Last(ts))]
  }

  function TradeCandle(t: Trade): Candle {
    Candle(Some(Time(t.ts, 0, 0)), t.price, t.price, t.price, t.price, t.volume, 0)
  }

  function Stamp(o: Ohlcv): Candle {
    Candle(Some(Time(o.start, 0, 0)), o.open, o.high, o.low, o.close, o.volume, 0)
  }

  function Stamps(os: seq<Ohlcv>): (r: seq<Candle>)
    ensures |r| == |os| && forall i :: 0 <= i < |r| ==> r[i] == Stamp(os[i])
  {
    if |os| == 0 then [] else Stamps(Front(os)) + [Stamp(Last(os))]
  }

  /** Trades arrive in bucket order (late stamps within one bucket are fine). */
  ghost predicate Orderly(ts: seq<Trade>, step: int)
    requires step > 0
  {
    forall i, j :: 0 <= i < j < |ts| ==> Bucket(ts[i].ts, step) <= Bucket(ts[j].ts, step)
  }

  /** For an orderly tape, resampling the trades one by one is the group-by. */
  lemma {:induction false} OrderlyTape(ts: seq<Trade>, step: int) returns (os: seq<Ohlcv>)
    requires step > 0 && Orderly(ts, step)
    ensures IsGroupBy(ts, step, os) && Aggregated(TradeCandles(ts), step) == Stamps(os)
    ensures |ts| > 0 ==> |os| > 0 && Last(os).start == Bucket(Last(ts).ts, step)
  {
    if |ts| == 0 {
      os := [];
    } else {
      OrderlyFront(ts, step);
      TapeFront(ts);
      var prev := OrderlyTape(Front(ts), step);
      if |ts| == 1 {
        TapeIsEmpty(prev, step);
      }
      if |ts| > 1 {
        BucketAligned(Last(Front(ts)).ts, step);
      }
      os := OrderlyStep(Front(ts), Last(ts), step, prev);
      TapeStep(prev, Last(ts), step);
    }
  }

  lemma OrderlyFront(ts: seq<Trade>, step: int)
    requires step > 0 && |ts| > 0 && Orderly(ts, step)
    ensures Orderly(Front(ts), step) && Front(ts) + [Last(ts)] == ts
    ensures |ts| > 1 ==> Bucket(Last(Front(ts)).ts, step) <= Bucket(Last(ts).ts, step)
  {
    forall i, j | 0 <= i < j < |Front(ts)|
      ensures Bucket(Front(ts)[i].ts, step) <= Bucket(Front(ts)[j].ts, step)
    {
      assert Front(ts)[i] == ts[i] && Front(ts)[j] == ts[j];
    }
    if |ts| > 1 {
      assert Last(Front(ts)) == ts[|ts| - 2] && Last(ts) == ts[|ts| - 1];
    }
  }

  lemma {:induction false} TapeFront(ts: seq<Trade>)
    requires |ts| > 0
    ensures Front(TradeCandles(ts)) == TradeCandles(Front(ts)) && Last(TradeCandles(ts)) == TradeCandle(Last(ts))
  {
  }

  lemma OrderlyStep(f: seq<Trade>, t: Trade, step: int, prev: seq<Ohlcv>) returns (os: seq<Ohlcv>)
    requires step > 0 && IsGroupBy(f, step, prev)
    requires |prev| > 0 ==> Aligned(Last(prev).start, step) && Last(prev).start <= Bucket(t.ts, step)
    ensures IsGroupBy(f + [t], step, os) && os == TapeBars(prev, t, step)
    ensures |os| > 0 && Last(os).start == Bucket(t.ts, step)
  {
    os := TapeBars(prev, t, step);
    if |prev| > 0 && Last(prev).start == Bucket(t.ts, step) {
      GroupGrows(f, step, prev, |prev| - 1, t);
    } else {
      GroupStarts(f, step, prev, t);
    }
  }

  lemma TapeIsEmpty(os: seq<Ohlcv>, step: int)
    requires step > 0 && IsGroupBy([], step, os)
    ensures os == []
  {
    assert |os| > 0 ==> IsSummary([], step, os[0]);
  }

  /** One more trade: the last bar grows or a bar starts. */
  ghost function TapeBars(os: seq<Ohlcv>, t: Trade, step: int): seq<Ohlcv>
    requires step > 0
  {
    if |os| > 0 && Last(os).start == Bucket(t.ts, step) then os[|os| - 1 := Grown(Last(os), t)]
        else os + [FirstOf(t, step)]
  }

  lemma {:induction false} StampsMore(os: seq<Ohlcv>, o: Ohlcv)
    ensures Stamps(os + [o]) == Stamps(os) + [Stamp(o)]
  {
    assert Front(os + [o]) == os;
  }

  /** A trade of the last bar's bucket merges into its candle. */
  lemma {:induction false} GrowStep(f: seq<Ohlcv>, o: Ohlcv, t: Trade, step: int)
    requires step > 0 && Aligned(o.start, step) && o.start == Bucket(t.ts, step)
    ensures H.Appended(Stamps(f + [o]), TradeCandle(t), step) == Stamps(f + [Grown(o, t)])
  {
    StampsMore(f, o);
    StampsMore(f, Grown(o, t));
    AppendSame(Stamps(f), Stamp(o), TradeCandle(t), step);
  }

  /** One more trade resampled. */
  lemma {:induction false} TapeStep(os: seq<Ohlcv>, t: Trade, step: int)
    requires step > 0 && (|os| > 0 ==> Aligned(Last(os).start, step))
    ensures H.Appended(Stamps(os), TradeCandle(t), step) == Stamps(TapeBars(os, t, step))
  {
    if |os| > 0 && Last(os).start == Bucket(t.ts, step) {
      var f, o := Front(os), Last(os);
      assert os == f + [o];
      GrowStep(f, o, t, step);
      assert TapeBars(os, t, step) == f + [Grown(o, t)];
    } else {
      AppendNew(Stamps(os), TradeCandle(t), step);
      StampsMore(os, FirstOf(t, step));
    }
  }

  function Bare(cs: seq<Candle>): (r: seq<Candle>)
    ensures |r| == |cs| && forall i :: 0 <= i < |r| ==> r[i] == cs[i].(oi := 0)
  {
    if |cs| == 0 then [] else Bare(Front(cs)) + [Last(cs).(oi := 0)]
  }

  /** Open interest takes no part in resampling the rest. */
  lemma {:induction false} AggregateBare(cs: seq<Candle>, step: int)
    requires step > 0 && Timed(cs)
    ensures Timed(Bare(cs)) && Aggregated(Bare(cs), step) == Bare(Aggregated(cs, step))
  {
    if |cs| > 0 {
      AggregateBare(Front(cs), step);
      assert Front(Bare(cs)) == Bare(Front(cs));
      assert Last(Bare(cs)) == Last(cs).(oi := 0);
      AppendBare(Aggregated(Front(cs), step), Last(cs), step);
    }
  }

  lemma {:induction false} BareMore(cs: seq<Candle>, c: Candle)
    ensures Bare(cs + [c]) == Bare(cs) + [c.(oi := 0)]
  {
    assert Front(cs + [c]) == cs;
  }

  lemma {:induction false} AppendBare(out: seq<Candle>, c: Candle, step: int)
    requires step > 0 && Timed(out) && c.time.Some?
    ensures Timed(Bare(out)) && Bare(H.Appended(out, c, step)) == H.Appended(Bare(out), c.(oi := 0), step)
  {
    if |out| > 0 && Slot(Last(out), step) == Slot(c, step) {
      var g, a := Front(out), Last(out);
      assert out == g + [a];
      AppendSame(g, a, c, step);
      BareMore(g, a);
      BareMore(g, Merged(a, c));
      AppendSame(Bare(g), a.(oi := 0), c.(oi := 0), step);
    } else {
      AppendNew(out, c, step);
      BareMore(out, H.Opened(c, step));
      AppendNew(Bare(out), c.(oi := 0), step);
    }
  }

  /** A run whose bars are all handed out and are all the trades it saw. */
  ghost predicate Flushed(lc: int, step: int, es: seq<Event>)
    requires step > 0
  {
    && Exec(lc, step, es).Some?
    && Exec(lc, step, es).value.agg.late == 0 && OpenBars(Exec(lc, step, es).value.agg) == []
    && Sane(PacketsOf(es)) && !JoinedPartWay(PacketsOf(es), step)
  }

  lemma {:induction false} FlushedBars(lc: int, step: int, es: seq<Event>)
    requires step > 0 && Flushed(lc, step, es)
    ensures var r := Exec(lc, step, es).value;
            r.out == CandlesOf(r.finished) && IsGroupBy(TradesOf(PacketsOf(es)), step, Plains(r.finished))
  {
    StreamIsGroupBy(lc, step, es);
    var r := Exec(lc, step, es).value;
    assert Bars(r) == r.finished;
  }

  /** Its candles are the resampled tape. */
  lemma {:induction false} FlushedStream(lc: int, step: int, es: seq<Event>)
    requires step > 0 && Flushed(lc, step, es) && Orderly(TradesOf(PacketsOf(es)), step)
    ensures Bare(Exec(lc, step, es).value.out) == Aggregated(TradeCandles(TradesOf(PacketsOf(es))), step)
  {
    FlushedBars(lc, step, es);
    var bars := Exec(lc, step, es).value.finished;
    var ts := TradesOf(PacketsOf(es));
    var os := OrderlyTape(ts, step);
    GroupByUnique(ts, step, Plains(bars), os);
    BareIsStamps(bars);
  }

  lemma {:induction false} BareIsStamps(bars: seq<Bar>)
    ensures Bare(CandlesOf(bars)) == Stamps(Plains(bars))
  {
  }

  /** Live and history resample alike: the `m`-second stream of a session, resampled to `m * k`
      seconds, is the `m * k`-second stream of the same packets (open interest aside), whatever the
      clock events of the two runs were. */
  lemma {:induction false} LiveMatchesHistory(lc: int, m: int, k: int, es: seq<Event>, lc2: int, es2: seq<Event>)
    requires m > 0 && k > 0 && m * k > 0
    requires Exec(lc, m, es).Some? && Flushed(lc2, m * k, es2) && PacketsOf(es) == PacketsOf(es2)
    requires Exec(lc, m, es).value.agg.late == 0 && OpenBars(Exec(lc, m, es).value.agg) == []
    requires Orderly(TradesOf(PacketsOf(es)), m)
    ensures Timed(Exec(lc, m, es).value.out)
    ensures Bare(Aggregated(Exec(lc, m, es).value.out, m * k)) == Bare(Exec(lc2, m * k, es2).value.out)
  {
    var ps := PacketsOf(es);
    var n := m * k;
    var ts := TradesOf(ps);
    if |ps| > 0 {
      var first := ps[0].ts.value;
      BucketNest(first, m, k);
      BucketAligned(first, m);
      assert Bucket(first, n) == first;
      CoarseIsFine(first, m, k);
      assert !JoinedPartWay(ps, m);
    }
    forall i, j | 0 <= i < j < |ts|
      ensures Bucket(ts[i].ts, n) <= Bucket(ts[j].ts, n)
    {
      BucketNest(ts[i].ts, m, k);
      BucketNest(ts[j].ts, m, k);
      BucketMono(Bucket(ts[i].ts, m), Bucket(ts[j].ts, m), n);
    }
    FlushedStream(lc, m, es);
    FlushedStream(lc2, n, es2);
    EmittedInOrder(lc, m, es);
    AggregateBare(Exec(lc, m, es).value.out, n);
    AggregateComposes(TradeCandles(ts), m, k);
  }
}
