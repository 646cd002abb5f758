/** The specification of the candle stream: the trades that packets report, and their grouping into
    bars. */
module Grouping {
  import opened Common
  import opened Candles

  // ------------------------------------------------- the specification: group-by

  /** A bar without its open interest. */
  datatype Ohlcv = Ohlcv(start: int, open: real, high: real, low: real, close: real, volume: nat)

  function Plain(b: Bar): Ohlcv {
    Ohlcv(b.start, b.open, b.high, b.low, b.close, b.volume)
  }

  function Plains(bs: seq<Bar>): (r: seq<Ohlcv>)
    ensures |r| == |bs| && forall i :: 0 <= i < |r| ==> r[i] == Plain(bs[i])
  {
    if |bs| == 0 then [] else Plains(Front(bs)) + [Plain(Last(bs))]
  }

  /** The trades of one bucket, in arrival order. */
  ghost function Only(ts: seq<Trade>, start: int, step: int): seq<Trade>
    requires step > 0
  {
    if |ts| == 0 then []
    else Only(Front(ts), start, step) + (if Bucket(Last(ts).ts, step) == start then [Last(ts)] else [])
  }

  function HighestPrice(ts: seq<Trade>): real
    requires |ts| > 0
  {
    if |ts| == 1 then ts[0].price else RMax(HighestPrice(Front(ts)), Last(ts).price)
  }

  function LowestPrice(ts: seq<Trade>): real
    requires |ts| > 0
  {
    if |ts| == 1 then ts[0].price else RMin(LowestPrice(Front(ts)), Last(ts).price)
  }

  function Volume(ts: seq<Trade>): nat {
    if |ts| == 0 then 0 else Volume(Front(ts)) + Last(ts).volume
  }

  /** First, highest, lowest and last price and the summed volume. */
  function Summary(ts: seq<Trade>, start: int): Ohlcv
    requires |ts| > 0
  {
    Ohlcv(start, ts[0].price, HighestPrice(ts), LowestPrice(ts), Last(ts).price, Volume(ts))
  }

  ghost predicate HasBar(bars: seq<Ohlcv>, start: int) {
    exists i :: 0 <= i < |bars| && bars[i].start == start
  }

  ghost predicate InOrder(bars: seq<Ohlcv>) {
    forall i, j :: 0 <= i < j < |bars| ==> bars[i].start < bars[j].start
  }

  /** `bars` are exactly the trades grouped by bucket, in bucket order: one bar for every bucket
      that has a trade, and each is the summary of its bucket's trades. */
  ghost predicate IsGroupBy(ts: seq<Trade>, step: int, bars: seq<Ohlcv>)
    requires step > 0
  {
    && InOrder(bars)
    && (forall i :: 0 <= i < |bars| ==> IsSummary(ts, step, bars[i]))
    && (forall j :: 0 <= j < |ts| ==> HasBar(bars, Bucket(ts[j].ts, step)))
  }

  ghost predicate IsSummary(ts: seq<Trade>, step: int, bar: Ohlcv)
    requires step > 0
  {
    |Only(ts, bar.start, step)| > 0 && bar == Summary(Only(ts, bar.start, step), bar.start)
  }

  lemma {:induction false} OnlyEmpty(ts: seq<Trade>, start: int, step: int)
    requires step > 0 && forall j :: 0 <= j < |ts| ==> Bucket(ts[j].ts, step) != start
    ensures Only(ts, start, step) == []
  {
    if |ts| > 0 {
      assert Last(ts) == ts[|ts| - 1];
      OnlyEmpty(Front(ts), start, step);
    }
  }

  lemma {:induction false} OnlyWitness(ts: seq<Trade>, start: int, step: int)
    requires step > 0 && |Only(ts, start, step)| > 0
    ensures exists j :: 0 <= j < |ts| && Bucket(ts[j].ts, step) == start
  {
    if forall j :: 0 <= j < |ts| ==> Bucket(ts[j].ts, step) != start {
      OnlyEmpty(ts, start, step);
    }
  }

  lemma TapeHasBars(ts: seq<Trade>, step: int, bars: seq<Ohlcv>)
    requires step > 0 && IsGroupBy(ts, step, bars)
    ensures |ts| > 0 ==> |bars| > 0
  {
    if |ts| > 0 {
      assert HasBar(bars, Bucket(ts[0].ts, step));
    }
  }

  /** The grouping of a tape is unique: the predicate is a specification of the bars. */
  lemma {:induction false} GroupByUnique(ts: seq<Trade>, step: int, a: seq<Ohlcv>, b: seq<Ohlcv>)
    requires step > 0 && IsGroupBy(ts, step, a) && IsGroupBy(ts, step, b)
    ensures a == b
  {
    forall i | 0 <= i < |a|
      ensures HasBar(b, a[i].start)
    {
      OnlyWitness(ts, a[i].start, step);
    }
    forall i | 0 <= i < |b|
      ensures HasBar(a, b[i].start)
    {
      OnlyWitness(ts, b[i].start, step);
    }
    SameStarts(a, b);
    SameStarts(b, a);
    assert Covered(a, b) && Covered(b, a);
    SameIndex(a, b, |a|);
  }

  /** A strictly ordered sequence whose starts all occur in another is no longer than it. */
  lemma {:induction false} SameStarts(a: seq<Ohlcv>, b: seq<Ohlcv>)
    requires InOrder(a) && InOrder(b)
    requires forall i :: 0 <= i < |a| ==> HasBar(b, a[i].start)
    ensures |a| <= |b|
  {
    if |a| > 0 {
      var x := Last(a);
      assert HasBar(b, x.start);
      var k :| 0 <= k < |b| && b[k].start == x.start;
      forall i | 0 <= i < |Front(a)|
        ensures HasBar(b[..k], Front(a)[i].start)
      {
        assert HasBar(b, a[i].start);
        var j :| 0 <= j < |b| && b[j].start == a[i].start;
        assert a[i].start < x.start;
        assert j < k;
        assert b[..k][j].start == a[i].start;
      }
      SameStarts(Front(a), b[..k]);
    }
  }

  ghost predicate Covered(a: seq<Ohlcv>, b: seq<Ohlcv>) {
    forall i :: 0 <= i < |a| ==> HasBar(b, a[i].start)
  }

  ghost predicate SameUpTo(a: seq<Ohlcv>, b: seq<Ohlcv>, n: nat)
    requires n <= |a| && n <= |b|
  {
    forall i :: 0 <= i < n ==> a[i].start == b[i].start
  }

  lemma {:induction false} SameIndex(a: seq<Ohlcv>, b: seq<Ohlcv>, n: nat)
    requires InOrder(a) && InOrder(b) && |a| == |b| && n <= |a| && Covered(a, b) && Covered(b, a)
    ensures SameUpTo(a, b, n)
  {
    if n > 0 {
      SameIndex(a, b, n - 1);
      NextIndex(a, b, n - 1);
    }
  }

  lemma NextIndex(a: seq<Ohlcv>, b: seq<Ohlcv>, m: nat)
    requires InOrder(a) && InOrder(b) && m < |a| == |b| && Covered(a, b) && Covered(b, a) && SameUpTo(a, b, m)
    ensures SameUpTo(a, b, m + 1)
  {
    assert HasBar(b, a[m].start) && HasBar(a, b[m].start);
    NotBefore(a, b, m);
    NotBefore(b, a, m);
  }

  /** With equal starts before `m`, the start `b[m]` is not below `a[m]`. */
  lemma NotBefore(a: seq<Ohlcv>, b: seq<Ohlcv>, m: nat)
    requires InOrder(a) && InOrder(b) && m < |a| == |b| && HasBar(a, b[m].start)
    requires forall i :: 0 <= i < m ==> a[i].start == b[i].start
    ensures b[m].start >= a[m].start
  {
    var k :| 0 <= k < |a| && a[k].start == b[m].start;
    forall i | 0 <= i < m
      ensures a[i].start < b[m].start
    {
      assert b[i].start < b[m].start;
    }
  }

  function Grown(o: Ohlcv, t: Trade): Ohlcv {
    Ohlcv(o.start, o.open, RMax(o.high, t.price), RMin(o.low, t.price), t.price, o.volume + t.volume)
  }

  ghost function FirstOf(t: Trade, step: int): Ohlcv
    requires step > 0
  {
    Ohlcv(Bucket(t.ts, step), t.price, t.price, t.price, t.price, t.volume)
  }

  /** A further trade of a bucket that has a bar. */
  lemma GroupGrows(ts: seq<Trade>, step: int, bars: seq<Ohlcv>, i: nat, t: Trade)
    requires step > 0 && IsGroupBy(ts, step, bars) && i < |bars| && bars[i].start == Bucket(t.ts, step)
    ensures IsGroupBy(ts + [t], step, bars[i := Grown(bars[i], t)])
  {
    var more := ts + [t];
    var r := bars[i := Grown(bars[i], t)];
    assert Front(more) == ts && Last(more) == t;
    forall k | 0 <= k < |r|
      ensures IsSummary(more, step, r[k])
    {
      assert IsSummary(ts, step, bars[k]);
      if k == i {
        var o := Only(ts, bars[i].start, step);
        assert Only(more, bars[i].start, step) == o + [t];
        assert Front(o + [t]) == o;
      } else {
        assert r[k].start != Bucket(t.ts, step);
        assert Only(more, r[k].start, step) == Only(ts, r[k].start, step);
      }
    }
    forall j | 0 <= j < |more|
      ensures HasBar(r, Bucket(more[j].ts, step))
    {
      if j < |ts| {
        assert more[j] == ts[j];
        assert HasBar(bars, Bucket(ts[j].ts, step));
        var k :| 0 <= k < |bars| && bars[k].start == Bucket(ts[j].ts, step);
        assert r[k].start == bars[k].start;
      } else {
        assert r[i].start == Bucket(t.ts, step);
      }
    }
  }

  /** The first trade of a bucket later than every bar. */
  lemma GroupStarts(ts: seq<Trade>, step: int, bars: seq<Ohlcv>, t: Trade)
    requires step > 0 && IsGroupBy(ts, step, bars)
    requires forall k :: 0 <= k < |bars| ==> bars[k].start < Bucket(t.ts, step)
    ensures IsGroupBy(ts + [t], step, bars + [FirstOf(t, step)])
  {
    var more := ts + [t];
    var r := bars + [FirstOf(t, step)];
    var b := Bucket(t.ts, step);
    assert Front(more) == ts && Last(more) == t;
    forall j | 0 <= j < |ts|
      ensures Bucket(ts[j].ts, step) != b
    {
      assert HasBar(bars, Bucket(ts[j].ts, step));
    }
    OnlyEmpty(ts, b, step);
    assert Only(more, b, step) == [t];
    assert Front([t]) == [];
    forall k | 0 <= k < |r|
      ensures IsSummary(more, step, r[k])
    {
      if k < |bars| {
        assert r[k] == bars[k];
        assert IsSummary(ts, step, bars[k]);
        assert Only(more, r[k].start, step) == Only(ts, r[k].start, step);
      } else {
        assert r[k] == FirstOf(t, step);
        assert Volume([t]) == Volume(Front([t])) + t.volume;
      }
    }
    forall j | 0 <= j < |more|
      ensures HasBar(r, Bucket(more[j].ts, step))
    {
      if j < |ts| {
        assert HasBar(bars, Bucket(ts[j].ts, step));
        var k :| 0 <= k < |bars| && bars[k].start == Bucket(ts[j].ts, step);
        assert r[k] == bars[k];
      } else {
        assert r[|bars|].start == b;
      }
    }
  }

  // ------------------------------------------------------- the tape of a run

  /** A packet an accepting `observe` has seen. */
  ghost predicate Complete(p: Packet) {
    p.ts.Some? && p.price.Some? && p.cumulative.Some?
  }

  /** Packets an aggregator can have accepted, one after the other. */
  ghost predicate Sane(ps: seq<Packet>) {
    forall i :: 0 <= i < |ps| ==> Complete(ps[i]) && (i > 0 ==> NotBelow(ps[i], ps[i - 1]))
  }

  ghost predicate NotBelow(p: Packet, q: Packet) {
    p.cumulative.Some? && q.cumulative.Some? && p.cumulative.value >= q.cumulative.value
  }

  /** A packet is a trade when it is the first, carries new volume, or is stamped later than every
      packet before it. */
  ghost predicate IsTrade(ps: seq<Packet>, i: nat)
    requires Sane(ps) && i < |ps|
  {
    || i == 0
    || ps[i].cumulative.value > ps[i - 1].cumulative.value
    || forall j :: 0 <= j < i ==> TradeTime(ps[j]) < TradeTime(ps[i])
  }

  /** The first packet is a trade of no volume at its packet time. */
  ghost function TradeOf(ps: seq<Packet>, i: nat): Trade
    requires Sane(ps) && i < |ps|
  {
    if i == 0 then Trade(ps[0].ts.value, ps[0].price.value, 0)
    else Trade(TradeTime(ps[i]), ps[i].price.value, ps[i].cumulative.value - ps[i - 1].cumulative.value)
  }

  /** The trades a packet sequence reports, whatever the aggregator does with them. */
  ghost function TradesOf(ps: seq<Packet>): seq<Trade>
    requires Sane(ps)
  {
    if |ps| == 0 then []
    else
      var n := |ps| - 1;
      TradesOf(Front(ps)) + (if IsTrade(ps, n) then [TradeOf(ps, n)] else [])
  }
}
