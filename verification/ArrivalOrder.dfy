/** Live candles against the resampler when trades do not arrive in bucket order: what agrees always, and
    exactly when everything does. */
module ArrivalOrder {
  import opened Common
  import opened Historical
  import opened Candles
  import opened Grouping
  import opened CandleRuns
  import opened CandleStream
  import opened LiveHistory

  // ------------------------------------------------------- the tape in bucket order

  /** `t` after every trade of its own or an earlier bucket. */
  ghost function Insert(ss: seq<Trade>, t: Trade, m: int): seq<Trade>
    requires m > 0
  {
    if |ss| == 0 || Bucket(Last(ss).ts, m) <= Bucket(t.ts, m) then ss + [t]
    else Insert(Front(ss), t, m) + [Last(ss)]
  }

  /** The tape in the order of its buckets; within a bucket, in order of arrival. */
  ghost function Sorted(ts: seq<Trade>, m: int): seq<Trade>
    requires m > 0
  {
    if |ts| == 0 then [] else Insert(Sorted(Front(ts), m), Last(ts), m)
  }

  ghost predicate Below(ts: seq<Trade>, m: int, b: int)
    requires m > 0
  {
    forall i :: 0 <= i < |ts| ==> Bucket(ts[i].ts, m) <= b
  }

  lemma {:induction false} InsertMore(f: seq<Trade>, x: Trade, t: Trade, m: int)
    requires m > 0
    ensures Insert(f + [x], t, m) == if Bucket(x.ts, m) <= Bucket(t.ts, m) then f + [x] + [t] else Insert(f, t, m) + [x]
  {
    assert Front(f + [x]) == f;
  }

  lemma {:induction false} SortedMore(f: seq<Trade>, t: Trade, m: int)
    requires m > 0
    ensures Sorted(f + [t], m) == Insert(Sorted(f, m), t, m)
  {
    assert Front(f + [t]) == f;
  }

  lemma {:induction false} OnlyMore(f: seq<Trade>, t: Trade, b: int, step: int)
    requires step > 0
    ensures Only(f + [t], b, step) == if Bucket(t.ts, step) == b then Only(f, b, step) + [t] else Only(f, b, step)
  {
    assert Front(f + [t]) == f;
    assert Only(f, b, step) + [] == Only(f, b, step);
  }

  lemma {:induction false} InsertLast(ss: seq<Trade>, t: Trade, m: int)
    requires m > 0 && Below(ss, m, Bucket(t.ts, m))
    ensures Insert(ss, t, m) == ss + [t]
  {
  }

  lemma BelowMore(f: seq<Trade>, t: Trade, m: int, b: int)
    requires m > 0
    ensures Below(f + [t], m, b) <==> Below(f, m, b) && Bucket(t.ts, m) <= b
  {
    assert (f + [t])[|f|] == t;
    assert forall i :: 0 <= i < |f| ==> (f + [t])[i] == f[i];
  }

  lemma {:induction false} InsertBelow(ss: seq<Trade>, t: Trade, m: int, b: int)
    requires m > 0 && Below(ss, m, b) && Bucket(t.ts, m) <= b
    ensures Below(Insert(ss, t, m), m, b)
  {
    if |ss| == 0 || Bucket(Last(ss).ts, m) <= Bucket(t.ts, m) {
      BelowMore(ss, t, m, b);
    } else {
      var f, x := Front(ss), Last(ss);
      assert ss == f + [x];
      BelowMore(f, x, m, b);
      InsertBelow(f, t, m, b);
      BelowMore(Insert(f, t, m), x, m, b);
    }
  }

  lemma OrderlyMore(f: seq<Trade>, t: Trade, m: int)
    requires m > 0
    ensures Orderly(f + [t], m) <==> Orderly(f, m) && Below(f, m, Bucket(t.ts, m))
  {
    var r := f + [t];
    assert r[|f|] == t && forall i :: 0 <= i < |f| ==> r[i] == f[i];
    if Orderly(r, m) {
      forall i | 0 <= i < |f|
        ensures Bucket(f[i].ts, m) <= Bucket(t.ts, m)
      {
        assert Bucket(r[i].ts, m) <= Bucket(r[|f|].ts, m);
      }
      forall i, j | 0 <= i < j < |f|
        ensures Bucket(f[i].ts, m) <= Bucket(f[j].ts, m)
      {
        assert Bucket(r[i].ts, m) <= Bucket(r[j].ts, m);
      }
    }
  }

  lemma {:induction false} InsertOrderly(ss: seq<Trade>, t: Trade, m: int)
    requires m > 0 && Orderly(ss, m)
    ensures Orderly(Insert(ss, t, m), m)
  {
    if |ss| == 0 {
      assert [] + [t] == [t];
    } else {
      var f, x := Front(ss), Last(ss);
      assert ss == f + [x];
      OrderlyMore(f, x, m);
      if Bucket(x.ts, m) <= Bucket(t.ts, m) {
        BelowAll(f, m, Bucket(x.ts, m), Bucket(t.ts, m));
        BelowMore(f, x, m, Bucket(t.ts, m));
        OrderlyMore(ss, t, m);
      } else {
        InsertOrderly(f, t, m);
        InsertBelow(f, t, m, Bucket(x.ts, m));
        OrderlyMore(Insert(f, t, m), x, m);
      }
    }
  }

  lemma BelowAll(ts: seq<Trade>, m: int, b: int, c: int)
    requires m > 0 && Below(ts, m, b) && b <= c
    ensures Below(ts, m, c)
  {
  }

  lemma {:induction false} SortedOrderly(ts: seq<Trade>, m: int)
    requires m > 0
    ensures Orderly(Sorted(ts, m), m)
  {
    if |ts| > 0 {
      SortedOrderly(Front(ts), m);
      InsertOrderly(Sorted(Front(ts), m), Last(ts), m);
    }
  }

  /** A tape in order is its own sorting. */
  lemma {:induction false} OrderlyIsSorted(ts: seq<Trade>, m: int)
    requires m > 0 && Orderly(ts, m)
    ensures Sorted(ts, m) == ts
  {
    if |ts| > 0 {
      var f, t := Front(ts), Last(ts);
      assert ts == f + [t];
      OrderlyMore(f, t, m);
      OrderlyIsSorted(f, m);
      InsertLast(f, t, m);
    }
  }

  // ------------------------------------------------------------ sorting and buckets

  lemma {:induction false} OnlyBelow(ts: seq<Trade>, b: int, step: int, m: int, c: int)
    requires step > 0 && m > 0 && Below(ts, m, c)
    ensures Below(Only(ts, b, step), m, c)
  {
    if |ts| > 0 {
      var f, t := Front(ts), Last(ts);
      assert ts == f + [t];
      BelowMore(f, t, m, c);
      OnlyBelow(f, b, step, m, c);
      OnlyMore(f, t, b, step);
      BelowMore(Only(f, b, step), t, m, c);
    }
  }

  /** Picking a bucket's trades and sorting commute, one trade at a time. */
  lemma {:induction false} OnlyInsert(ss: seq<Trade>, t: Trade, m: int, b: int, n: int)
    requires m > 0 && n > 0 && Orderly(ss, m)
    ensures Only(Insert(ss, t, m), b, n) == if Bucket(t.ts, n) == b then Insert(Only(ss, b, n), t, m)
            else Only(ss, b, n)
  {
    if |ss| == 0 {
      OnlyMore(ss, t, b, n);
    } else {
      var f, x := Front(ss), Last(ss);
      assert ss == f + [x];
      OrderlyMore(f, x, m);
      if Bucket(x.ts, m) <= Bucket(t.ts, m) {
        BelowAll(f, m, Bucket(x.ts, m), Bucket(t.ts, m));
        BelowMore(f, x, m, Bucket(t.ts, m));
        OnlyBelow(ss, b, n, m, Bucket(t.ts, m));
        OnlyMore(ss, t, b, n);
        InsertLast(Only(ss, b, n), t, m);
      } else {
        OnlyInsert(f, t, m, b, n);
        OnlyMore(Insert(f, t, m), x, b, n);
        OnlyMore(f, x, b, n);
        InsertMore(Only(f, b, n), x, t, m);
      }
    }
  }

  lemma {:induction false} OnlySorted(ts: seq<Trade>, m: int, b: int, n: int)
    requires m > 0 && n > 0
    ensures Only(Sorted(ts, m), b, n) == Sorted(Only(ts, b, n), m)
  {
    if |ts| > 0 {
      var f, t := Front(ts), Last(ts);
      assert ts == f + [t];
      SortedOrderly(f, m);
      OnlySorted(f, m, b, n);
      OnlyInsert(Sorted(f, m), t, m, b, n);
      OnlyMore(f, t, b, n);
      SortedMore(Only(f, b, n), t, m);
    }
  }

  /** Every trade picked is a trade of the tape, in the bucket. */
  lemma {:induction false} OnlyFrom(ts: seq<Trade>, b: int, step: int, i: nat) returns (j: nat)
    requires step > 0 && i < |Only(ts, b, step)|
    ensures j < |ts| && ts[j] == Only(ts, b, step)[i] && Bucket(ts[j].ts, step) == b
  {
    var f, t := Front(ts), Last(ts);
    assert ts == f + [t];
    OnlyMore(f, t, b, step);
    if i < |Only(f, b, step)| {
      j := OnlyFrom(f, b, step, i);
    } else {
      j := |f|;
    }
  }

  lemma {:induction false} OnlyHas(ts: seq<Trade>, b: int, step: int, j: nat) returns (i: nat)
    requires step > 0 && j < |ts| && Bucket(ts[j].ts, step) == b
    ensures i < |Only(ts, b, step)| && Only(ts, b, step)[i] == ts[j]
  {
    var f, t := Front(ts), Last(ts);
    assert ts == f + [t];
    OnlyMore(f, t, b, step);
    if j < |f| {
      i := OnlyHas(f, b, step, j);
    } else {
      i := |Only(f, b, step)|;
    }
  }

  /** A fine bucket keeps all its trades in sorting. */
  lemma {:induction false} FineStays(ts: seq<Trade>, b: int, m: int)
    requires m > 0
    ensures Only(Sorted(ts, m), b, m) == Only(ts, b, m)
  {
    var o := Only(ts, b, m);
    OnlySorted(ts, m, b, m);
    forall i, j | 0 <= i < j < |o|
      ensures Bucket(o[i].ts, m) <= Bucket(o[j].ts, m)
    {
      var x := OnlyFrom(ts, b, m, i);
      var y := OnlyFrom(ts, b, m, j);
    }
    OrderlyIsSorted(o, m);
  }

  /** Picking the coarse bucket first loses nothing of a fine one inside it. */
  lemma {:induction false} OnlyNests(ts: seq<Trade>, b: int, m: int, k: int)
    requires m > 0 && k > 0 && m * k > 0 && Aligned(b, m)
    ensures Only(Only(ts, Bucket(b, m * k), m * k), b, m) == Only(ts, b, m)
  {
    if |ts| > 0 {
      var f, t, n := Front(ts), Last(ts), m * k;
      assert ts == f + [t];
      OnlyNests(f, b, m, k);
      OnlyMore(f, t, Bucket(b, n), n);
      OnlyMore(f, t, b, m);
      OnlyMore(Only(f, Bucket(b, n), n), t, b, m);
      BucketNest(t.ts, m, k);
    }
  }

  // --------------------------------------------------- what sorting does to a summary

  lemma {:induction false} SummaryMore(f: seq<Trade>, t: Trade)
    ensures Volume(f + [t]) == Volume(f) + t.volume
    ensures HighestPrice(f + [t]) == if |f| == 0 then t.price else RMax(HighestPrice(f), t.price)
    ensures LowestPrice(f + [t]) == if |f| == 0 then t.price else RMin(LowestPrice(f), t.price)
  {
    assert Front(f + [t]) == f;
  }

  lemma {:induction false} InsertSummary(ss: seq<Trade>, t: Trade, m: int)
    requires m > 0
    ensures |Insert(ss, t, m)| == |ss| + 1 && Volume(Insert(ss, t, m)) == Volume(ss) + t.volume
    ensures HighestPrice(Insert(ss, t, m)) == if |ss| == 0 then t.price else RMax(HighestPrice(ss), t.price)
    ensures LowestPrice(Insert(ss, t, m)) == if |ss| == 0 then t.price else RMin(LowestPrice(ss), t.price)
  {
    if |ss| == 0 || Bucket(Last(ss).ts, m) <= Bucket(t.ts, m) {
      SummaryMore(ss, t);
    } else {
      var f, x := Front(ss), Last(ss);
      assert ss == f + [x];
      InsertSummary(f, t, m);
      SummaryMore(f, x);
      SummaryMore(Insert(f, t, m), x);
    }
  }

  lemma {:induction false} SortedSummary(o: seq<Trade>, m: int)
    requires m > 0
    ensures |Sorted(o, m)| == |o| && Volume(Sorted(o, m)) == Volume(o)
    ensures |o| > 0 ==> HighestPrice(Sorted(o, m)) == HighestPrice(o) && LowestPrice(Sorted(o, m)) == LowestPrice(o)
  {
    if |o| > 0 {
      var f, t := Front(o), Last(o);
      assert o == f + [t];
      SortedSummary(f, m);
      InsertSummary(Sorted(f, m), t, m);
      SummaryMore(f, t);
    }
  }

  lemma {:induction false} InsertFirst(ss: seq<Trade>, t: Trade, m: int)
    requires m > 0 && |ss| > 0 && Bucket(ss[0].ts, m) <= Bucket(t.ts, m)
    ensures Insert(ss, t, m)[0] == ss[0]
  {
    InsertSummary(ss, t, m);
    if Bucket(Last(ss).ts, m) > Bucket(t.ts, m) {
      InsertSummary(Front(ss), t, m);
      InsertFirst(Front(ss), t, m);
    }
  }

  ghost predicate Above(ts: seq<Trade>, m: int, b: int)
    requires m > 0
  {
    forall i :: 0 <= i < |ts| ==> b <= Bucket(ts[i].ts, m)
  }

  lemma AboveMore(f: seq<Trade>, t: Trade, m: int, b: int)
    requires m > 0
    ensures Above(f + [t], m, b) <==> Above(f, m, b) && b <= Bucket(t.ts, m)
  {
    assert (f + [t])[|f|] == t;
    assert forall i :: 0 <= i < |f| ==> (f + [t])[i] == f[i];
  }

  ghost predicate StartsWith(ts: seq<Trade>, x: Trade) {
    |ts| > 0 && ts[0] == x
  }

  /** A trade of the least bucket that arrived first stays first. */
  lemma {:induction false} SortedFirst(o: seq<Trade>, m: int, x: Trade)
    requires m > 0 && StartsWith(o, x) && Above(o, m, Bucket(x.ts, m))
    ensures StartsWith(Sorted(o, m), x)
  {
    var f, t := Front(o), Last(o);
    assert o == f + [t];
    if |f| > 0 {
      AboveMore(f, t, m, Bucket(x.ts, m));
      SortedFirst(f, m, x);
      InsertFirst(Sorted(f, m), t, m);
    } else {
      SortedOne(x, m);
      assert o == [x];
    }
  }

  lemma {:induction false} SortedOne(x: Trade, m: int)
    requires m > 0
    ensures Sorted([x], m) == [x]
  {
    SortedMore([], x, m);
    assert [] + [x] == [x];
  }

  /** The last trade of the sorted tape is the last to arrive of the greatest bucket. */
  lemma {:induction false} SortedLast(o: seq<Trade>, m: int, b: int)
    requires m > 0 && Below(o, m, b) && |Only(o, b, m)| > 0
    ensures |Sorted(o, m)| > 0 && Last(Sorted(o, m)) == Last(Only(o, b, m))
  {
    var s := Sorted(o, m);
    SortedOrderly(o, m);
    FineStays(o, b, m);
    var j := OnlyFrom(s, b, m, 0);
    SortedBelow(o, m, b);
    assert Bucket(s[j].ts, m) <= Bucket(Last(s).ts, m) by {
      assert j < |s| - 1 ==> Bucket(s[j].ts, m) <= Bucket(s[|s| - 1].ts, m);
    }
    assert s == Front(s) + [Last(s)];
    OnlyMore(Front(s), Last(s), b, m);
  }

  lemma {:induction false} SortedBelow(o: seq<Trade>, m: int, b: int)
    requires m > 0 && Below(o, m, b)
    ensures Below(Sorted(o, m), m, b)
  {
    if |o| > 0 {
      var f, t := Front(o), Last(o);
      assert o == f + [t];
      BelowMore(f, t, m, b);
      SortedBelow(f, m, b);
      InsertBelow(Sorted(f, m), t, m, b);
    }
  }

  // ----------------------------------------------------------- closes that agree

  /** The latest of the `m`-second buckets with trades in its `n`-second bucket. */
  ghost predicate LastTraded(ts: seq<Trade>, b: int, m: int, n: int)
    requires m > 0 && n > 0
  {
    && |Only(ts, b, m)| > 0
    && forall j :: 0 <= j < |ts| && Bucket(ts[j].ts, n) == Bucket(b, n) ==> Bucket(ts[j].ts, m) <= b
  }

  /** The last price to arrive in a bucket. */
  ghost function ClosePrice(ts: seq<Trade>, b: int, step: int): real
    requires step > 0
  {
    if |Only(ts, b, step)| > 0 then Last(Only(ts, b, step)).price else 0.0
  }

  /** In every `n`-second bucket, the last price to arrive is the last price to arrive in the last
      `m`-second bucket traded in it. */
  ghost predicate AgreeingCloses(ts: seq<Trade>, m: int, n: int)
    requires m > 0 && n > 0
  {
    forall b :: LastTraded(ts, b, m, n) ==> ClosePrice(ts, b, m) == ClosePrice(ts, Bucket(b, n), n)
  }

  /** The bucket `b` belongs to the last trade of the sorted coarse bucket, and gives its close. */
  lemma {:induction false} LastTradedIs(ts: seq<Trade>, b: int, m: int, k: int)
    requires m > 0 && k > 0 && m * k > 0 && LastTraded(ts, b, m, m * k)
    ensures var s := Sorted(Only(ts, Bucket(b, m * k), m * k), m);
            |s| > 0 && Last(s) == Last(Only(ts, b, m))
  {
    var n := m * k;
    var o := Only(ts, Bucket(b, n), n);
    var j := OnlyFrom(ts, b, m, 0);
    BucketAligned(ts[j].ts, m);
    OnlyNests(ts, b, m, k);
    forall i | 0 <= i < |o|
      ensures Bucket(o[i].ts, m) <= b
    {
      var x := OnlyFrom(ts, Bucket(b, n), n, i);
    }
    SortedLast(o, m, b);
  }

  /** Every coarse bucket with trades has a last traded fine one. */
  lemma {:induction false} SomeLastTraded(ts: seq<Trade>, c: int, m: int, k: int) returns (b: int)
    requires m > 0 && k > 0 && m * k > 0 && |Only(ts, c, m * k)| > 0
    ensures LastTraded(ts, b, m, m * k) && Bucket(b, m * k) == c
  {
    var n := m * k;
    var o := Only(ts, c, n);
    var s := Sorted(o, m);
    SortedSummary(o, m);
    SortedOrderly(o, m);
    b := Bucket(Last(s).ts, m);
    var i := OnlyHas(s, b, m, |s| - 1);
    FineStays(o, b, m);
    var x := OnlyFrom(o, b, m, i);
    var y := OnlyFrom(ts, c, n, x);
    BucketNest(ts[y].ts, m, k);
    var z := OnlyHas(ts, b, m, y);
    forall j | 0 <= j < |ts| && Bucket(ts[j].ts, n) == c
      ensures Bucket(ts[j].ts, m) <= b
    {
      NotAfterLast(ts, c, n, m, j);
    }
  }

  lemma {:induction false} NotAfterLast(ts: seq<Trade>, c: int, n: int, m: int, j: nat)
    requires m > 0 && n > 0 && j < |ts| && Bucket(ts[j].ts, n) == c
    ensures var s := Sorted(Only(ts, c, n), m); |s| > 0 && Bucket(ts[j].ts, m) <= Bucket(Last(s).ts, m)
  {
    var o := Only(ts, c, n);
    var s := Sorted(o, m);
    var b := Bucket(ts[j].ts, m);
    var i := OnlyHas(ts, c, n, j);
    var x := OnlyHas(o, b, m, i);
    FineStays(o, b, m);
    var y := OnlyFrom(s, b, m, x);
    SortedOrderly(o, m);
    assert y < |s| - 1 ==> Bucket(s[y].ts, m) <= Bucket(s[|s| - 1].ts, m);
  }

  // --------------------------------------------------------- buckets open in order

  /** Trade `j` comes to a bucket that has trades, or to one after all that have. */
  ghost predicate Opens(ts: seq<Trade>, j: nat, m: int)
    requires m > 0 && j < |ts|
  {
    || (exists i :: 0 <= i < j && Bucket(ts[i].ts, m) == Bucket(ts[j].ts, m))
    || forall i :: 0 <= i < j ==> Bucket(ts[i].ts, m) < Bucket(ts[j].ts, m)
  }

  ghost predicate Opening(ts: seq<Trade>, m: int)
    requires m > 0
  {
    forall j :: 0 <= j < |ts| ==> Opens(ts, j, m)
  }

  lemma OpeningFront(f: seq<Trade>, t: Trade, m: int)
    requires m > 0
    ensures Opening(f + [t], m) <==> Opening(f, m) && Opens(f + [t], |f|, m)
  {
    var r := f + [t];
    assert forall i :: 0 <= i < |f| ==> r[i] == f[i];
    forall j | 0 <= j < |f|
      ensures Opens(r, j, m) <==> Opens(f, j, m)
    {
    }
  }

  /** The first trade to arrive in a coarse bucket is of its least fine bucket. */
  lemma {:induction false} FirstIsLeast(ts: seq<Trade>, c: int, m: int, k: int)
    requires m > 0 && k > 0 && m * k > 0 && Opening(ts, m) && |Only(ts, c, m * k)| > 0
    ensures forall j :: 0 <= j < |ts| && Bucket(ts[j].ts, m * k) == c ==>
            Bucket(Only(ts, c, m * k)[0].ts, m) <= Bucket(ts[j].ts, m)
  {
    var f, t, n := Front(ts), Last(ts), m * k;
    assert ts == f + [t];
    OpeningFront(f, t, m);
    OnlyMore(f, t, c, n);
    var o := Only(f, c, n);
    if |o| == 0 {
      forall j | 0 <= j < |f|
        ensures Bucket(f[j].ts, n) != c
      {
        if Bucket(f[j].ts, n) == c {
          var _ := OnlyHas(f, c, n, j);
        }
      }
    } else {
      FirstIsLeast(f, c, m, k);
      if Bucket(t.ts, n) == c {
        LaterIsNotLess(f, t, c, m, k);
      }
    }
  }

  lemma {:induction false} LaterIsNotLess(f: seq<Trade>, t: Trade, c: int, m: int, k: int)
    requires m > 0 && k > 0 && m * k > 0 && |Only(f, c, m * k)| > 0 && Bucket(t.ts, m * k) == c
    requires forall j :: 0 <= j < |f| && Bucket(f[j].ts, m * k) == c ==>
             Bucket(Only(f, c, m * k)[0].ts, m) <= Bucket(f[j].ts, m)
    requires Opens(f + [t], |f|, m)
    ensures Bucket(Only(f, c, m * k)[0].ts, m) <= Bucket(t.ts, m)
  {
    var r := f + [t];
    var first := OnlyFrom(f, c, m * k, 0);
    assert r[first] == f[first];
    if i :| 0 <= i < |f| && Bucket(r[i].ts, m) == Bucket(r[|f|].ts, m) {
      BucketNest(f[i].ts, m, k);
      BucketNest(t.ts, m, k);
    }
  }

  // ------------------------------------------------------------ the bars of the tape

  /** Equal but for closes. */
  ghost predicate AllButCloses(a: seq<Candle>, b: seq<Candle>) {
    |a| == |b| && forall i :: 0 <= i < |a| ==> a[i] == b[i].(close := a[i].close)
  }

  ghost predicate SameStarting(a: seq<Ohlcv>, b: seq<Ohlcv>) {
    |a| == |b| && forall i :: 0 <= i < |a| ==> a[i].start == b[i].start
  }

  lemma CoveredBoth(a: seq<Ohlcv>, b: seq<Ohlcv>)
    requires InOrder(a) && InOrder(b) && Covered(a, b) && Covered(b, a)
    ensures SameStarting(a, b)
  {
    SameStarts(a, b);
    SameStarts(b, a);
    SameIndex(a, b, |a|);
  }

  /** A grouping has a bar for every bucket in which the other tape has trades. */
  lemma {:induction false} CoversBars(ts: seq<Trade>, a: seq<Ohlcv>, ss: seq<Trade>, b: seq<Ohlcv>, step: int)
    requires step > 0 && IsGroupBy(ts, step, a) && IsGroupBy(ss, step, b)
    requires forall c :: |Only(ts, c, step)| == |Only(ss, c, step)|
    ensures Covered(a, b)
  {
    forall i | 0 <= i < |a|
      ensures HasBar(b, a[i].start)
    {
      assert IsSummary(ts, step, a[i]);
      assert |Only(ts, a[i].start, step)| == |Only(ss, a[i].start, step)|;
      OnlyWitness(ss, a[i].start, step);
    }
  }

  /** The fine grouping of a tape is that of the sorted tape. */
  lemma {:induction false} FineGroups(ts: seq<Trade>, m: int, fine: seq<Ohlcv>)
    requires m > 0 && IsGroupBy(ts, m, fine)
    ensures IsGroupBy(Sorted(ts, m), m, fine)
  {
    var ss := Sorted(ts, m);
    forall i | 0 <= i < |fine|
      ensures IsSummary(ss, m, fine[i])
    {
      assert IsSummary(ts, m, fine[i]);
      FineStays(ts, fine[i].start, m);
    }
    forall j | 0 <= j < |ss|
      ensures HasBar(fine, Bucket(ss[j].ts, m))
    {
      var b := Bucket(ss[j].ts, m);
      var x := OnlyHas(ss, b, m, j);
      FineStays(ts, b, m);
      OnlyWitness(ts, b, m);
    }
  }

  lemma {:induction false} CoarseOrderly(ts: seq<Trade>, m: int, k: int)
    requires m > 0 && k > 0 && m * k > 0 && Orderly(ts, m)
    ensures Orderly(ts, m * k)
  {
    forall i, j | 0 <= i < j < |ts|
      ensures Bucket(ts[i].ts, m * k) <= Bucket(ts[j].ts, m * k)
    {
      BucketNest(ts[i].ts, m, k);
      BucketNest(ts[j].ts, m, k);
      BucketMono(Bucket(ts[i].ts, m), Bucket(ts[j].ts, m), m * k);
    }
  }

  /** Resampling the fine bars of any tape is grouping the sorted tape. */
  lemma {:induction false} ResampledIsSorted(ts: seq<Trade>, m: int, k: int, fine: seq<Ohlcv>) returns (os: seq<Ohlcv>)
    requires m > 0 && k > 0 && m * k > 0 && IsGroupBy(ts, m, fine)
    ensures IsGroupBy(Sorted(ts, m), m * k, os) && Aggregated(Stamps(fine), m * k) == Stamps(os)
  {
    var ss := Sorted(ts, m);
    SortedOrderly(ts, m);
    CoarseOrderly(ss, m, k);
    var fs := OrderlyTape(ss, m);
    os := OrderlyTape(ss, m * k);
    FineGroups(ts, m, fine);
    GroupByUnique(ss, m, fine, fs);
    AggregateComposes(TradeCandles(ss), m, k);
  }

  /** So sorting its trades changes a coarse bar at most in its close. */
  lemma {:induction false} SortedBucket(ts: seq<Trade>, c: int, m: int, k: int)
    requires m > 0 && k > 0 && m * k > 0 && Opening(ts, m) && |Only(ts, c, m * k)| > 0
    ensures var o := Only(ts, c, m * k); var s := Sorted(o, m);
            |s| > 0 && Summary(s, c) == Summary(o, c).(close := Last(s).price)
  {
    var o := Only(ts, c, m * k);
    FirstIsLeast(ts, c, m, k);
    forall i | 0 <= i < |o|
      ensures Bucket(o[0].ts, m) <= Bucket(o[i].ts, m)
    {
      var j := OnlyFrom(ts, c, m * k, i);
    }
    SortedFirst(o, m, o[0]);
    SortedSummary(o, m);
  }

  /** One coarse bucket of the tape and of the sorted tape: all but the close agree. */
  lemma {:induction false} SortedBar(ts: seq<Trade>, c: int, m: int, k: int, a: Ohlcv, b: Ohlcv)
    requires m > 0 && k > 0 && m * k > 0 && Opening(ts, m) && a.start == b.start == c
    requires IsSummary(Sorted(ts, m), m * k, a) && IsSummary(ts, m * k, b)
    ensures a == b.(close := a.close)
    ensures |Sorted(Only(ts, c, m * k), m)| > 0 && a.close == Last(Sorted(Only(ts, c, m * k), m)).price
    ensures b.close == ClosePrice(ts, c, m * k)
  {
    OnlySorted(ts, m, c, m * k);
    SortedBucket(ts, c, m, k);
  }

  /** All coarse bars agree exactly when the closes of the last traded fine buckets are theirs. */
  lemma {:induction false} ClosesAgree(ts: seq<Trade>, m: int, k: int, a: seq<Ohlcv>, b: seq<Ohlcv>)
    requires m > 0 && k > 0 && m * k > 0 && IsGroupBy(Sorted(ts, m), m * k, a) && IsGroupBy(ts, m * k, b)
             && Opening(ts, m)
    requires SameStarting(a, b)
    ensures forall i :: 0 <= i < |a| ==> a[i] == b[i].(close := a[i].close)
    ensures a == b <==> AgreeingCloses(ts, m, m * k)
  {
    var n := m * k;
    forall i | 0 <= i < |a|
      ensures a[i] == b[i].(close := a[i].close)
      ensures AgreeingCloses(ts, m, n) ==> a[i] == b[i]
    {
      assert IsSummary(Sorted(ts, m), n, a[i]) && IsSummary(ts, n, b[i]);
      SortedBar(ts, a[i].start, m, k, a[i], b[i]);
      var f := SomeLastTraded(ts, a[i].start, m, k);
      LastTradedIs(ts, f, m, k);
    }
    if a == b {
      forall f | LastTraded(ts, f, m, n)
        ensures ClosePrice(ts, f, m) == ClosePrice(ts, Bucket(f, n), n)
      {
        SameClose(ts, m, k, a, f);
      }
    }
  }

  lemma {:induction false} SameClose(ts: seq<Trade>, m: int, k: int, a: seq<Ohlcv>, f: int)
    requires m > 0 && k > 0 && m * k > 0 && IsGroupBy(Sorted(ts, m), m * k, a) && IsGroupBy(ts, m * k, a)
             && Opening(ts, m)
    requires LastTraded(ts, f, m, m * k)
    ensures ClosePrice(ts, f, m) == ClosePrice(ts, Bucket(f, m * k), m * k)
  {
    var n := m * k;
    var j := OnlyFrom(ts, f, m, 0);
    BucketNest(ts[j].ts, m, k);
    assert HasBar(a, Bucket(f, n));
    var i :| 0 <= i < |a| && a[i].start == Bucket(f, n);
    assert IsSummary(Sorted(ts, m), n, a[i]) && IsSummary(ts, n, a[i]);
    SortedBar(ts, Bucket(f, n), m, k, a[i], a[i]);
    LastTradedIs(ts, f, m, k);
  }

  /** The fine bars of a tape resampled against its coarse bars. */
  lemma {:induction false} ResampledBars(ts: seq<Trade>, m: int, k: int, fine: seq<Ohlcv>, coarse: seq<Ohlcv>)
    requires m > 0 && k > 0 && m * k > 0 && Opening(ts, m) && IsGroupBy(ts, m, fine) && IsGroupBy(ts, m * k, coarse)
    ensures AllButCloses(Aggregated(Stamps(fine), m * k), Stamps(coarse))
    ensures Aggregated(Stamps(fine), m * k) == Stamps(coarse) <==> AgreeingCloses(ts, m, m * k)
  {
    var n := m * k;
    var os := ResampledIsSorted(ts, m, k, fine);
    forall c
      ensures |Only(ts, c, n)| == |Only(Sorted(ts, m), c, n)|
    {
      OnlySorted(ts, m, c, n);
      SortedSummary(Only(ts, c, n), m);
    }
    CoversBars(ts, coarse, Sorted(ts, m), os, n);
    CoversBars(Sorted(ts, m), os, ts, coarse, n);
    CoveredBoth(os, coarse);
    ClosesAgree(ts, m, k, os, coarse);
    StampsEqual(os, coarse);
  }

  lemma {:induction false} StampsEqual(a: seq<Ohlcv>, b: seq<Ohlcv>)
    requires |a| == |b|
    ensures Stamps(a) == Stamps(b) <==> a == b
  {
    if Stamps(a) == Stamps(b) {
      forall i | 0 <= i < |a|
        ensures a[i] == b[i]
      {
        assert Stamps(a)[i] == Stamps(b)[i];
      }
    }
  }

  // --------------------------------------------------------------------- the runs

  /** A booked trade goes to a bucket that has a bar, or to one after all bars. */
  lemma {:induction false} BookOpens(lc: int, fin: seq<Bar>, a: Agg, booked: seq<Trade>, t: Trade)
    requires a.step > 0 && Placed(lc, fin, a) && IsGroupBy(booked, a.step, Plains(Whole(fin, a)))
             && Opening(booked, a.step)
    ensures Opening(booked + BookedBy(a, t), a.step)
  {
    var b, all := Bucket(t.ts, a.step), Whole(fin, a);
    var place := PlaceOf(a, b);
    if place.Late? {
      assert booked + [] == booked;
    } else {
      var x := BookedTrade(a, t);
      assert BookedBy(a, t) == [x] && x.ts == t.ts;
      if place.Next? {
        BucketAligned(t.ts, a.step);
        NextIsLatest(lc, fin, a, b);
        OpensLatest(booked, a.step, Plains(all), x);
      } else {
        var i := if place.Here? then |all| - 1 else |fin| + place.index;
        assert all[i].start == b;
        OpensAgain(booked, a.step, Plains(all), i, x);
      }
      OpeningFront(booked, x, a.step);
    }
  }

  lemma OpensLatest(ts: seq<Trade>, step: int, bars: seq<Ohlcv>, x: Trade)
    requires step > 0 && IsGroupBy(ts, step, bars)
    requires forall i :: 0 <= i < |bars| ==> bars[i].start < Bucket(x.ts, step)
    ensures Opens(ts + [x], |ts|, step)
  {
    forall i | 0 <= i < |ts|
      ensures Bucket((ts + [x])[i].ts, step) < Bucket(x.ts, step)
    {
      assert HasBar(bars, Bucket(ts[i].ts, step));
    }
  }

  lemma OpensAgain(ts: seq<Trade>, step: int, bars: seq<Ohlcv>, i: nat, x: Trade)
    requires step > 0 && IsGroupBy(ts, step, bars) && i < |bars| && bars[i].start == Bucket(x.ts, step)
    ensures Opens(ts + [x], |ts|, step)
  {
    assert IsSummary(ts, step, bars[i]);
    OnlyWitness(ts, bars[i].start, step);
    var j :| 0 <= j < |ts| && Bucket(ts[j].ts, step) == bars[i].start;
    assert (ts + [x])[j] == ts[j];
  }

  /** In every run the buckets open in order: a trade is booked to a bar there is or after all bars. */
  lemma {:induction false} RunOpens(lc: int, step: int, es: seq<Event>)
    requires step > 0 && Exec(lc, step, es).Some?
    ensures Opening(Exec(lc, step, es).value.booked, step)
  {
    if |es| > 0 {
      RunOpens(lc, step, Front(es));
      ExecKeeps(lc, step, Front(es));
      if Last(es).Seen? {
        ArrivalOpens(lc, step, Exec(lc, step, Front(es)).value, Last(es).p);
      }
    }
  }

  lemma {:induction false} ArrivalOpens(lc: int, step: int, r: Run, p: Packet)
    requires step > 0 && r in Sound(lc, step) && AfterPacket(r.agg, p).1.None? && Opening(r.booked, step)
    ensures Opening(r.booked + Arrival(r.agg, p), step)
  {
    if |r.packets| == 0 {
      NothingYet(lc, step, r);
    }
    var ts := Arrival(r.agg, p);
    if r.agg.started && |ts| > 0 {
      BookOpens(lc, r.finished, r.agg, r.booked, Trade(TradeTime(p), p.price.value, Delta(r.agg, p.cumulative.value)));
    } else {
      assert |ts| == 0 ==> r.booked + ts == r.booked;
    }
  }

  /** Two runs over the same packets, bars of `m` and of `m * k` seconds, each flushed and without a late
      trade; the clock events of the two need not be the same. */
  ghost predicate Sessions(lc: int, m: int, k: int, es: seq<Event>, lc2: int, es2: seq<Event>) {
    && m > 0 && k > 0 && m * k > 0
    && Exec(lc, m, es).Some? && Flushed(lc2, m * k, es2) && PacketsOf(es) == PacketsOf(es2)
    && Exec(lc, m, es).value.agg.late == 0 && OpenBars(Exec(lc, m, es).value.agg) == []
  }

  lemma {:induction false} FineFlushed(lc: int, m: int, k: int, es: seq<Event>, lc2: int, es2: seq<Event>)
    requires Sessions(lc, m, k, es, lc2, es2)
    ensures Flushed(lc, m, es)
  {
    var ps := PacketsOf(es);
    if |ps| > 0 {
      var first := ps[0].ts.value;
      BucketNest(first, m, k);
      BucketAligned(first, m);
      CoarseIsFine(first, m, k);
      assert Bucket(first, m * k) == first;
    }
  }

  /** Live and history in any order of arrival: the `m`-second bars resampled are the `m * k`-second bars
      in start, open, high, low and volume, whatever the order of the trades; and they agree entirely
      exactly when the closes of the last traded fine buckets are those of their coarse ones. */
  lemma {:induction false} LiveMatchesHistoryExactly(lc: int, m: int, k: int, es: seq<Event>, lc2: int, es2: seq<Event>)
    requires Sessions(lc, m, k, es, lc2, es2)
    ensures Sane(PacketsOf(es)) && Timed(Exec(lc, m, es).value.out)
    ensures var resampled, live := Aggregated(Exec(lc, m, es).value.out, m * k), Exec(lc2, m * k, es2).value.out;
            && AllButCloses(Bare(resampled), Bare(live))
            && (Bare(resampled) == Bare(live) <==> AgreeingCloses(TradesOf(PacketsOf(es)), m, m * k))
  {
    FineFlushed(lc, m, k, es, lc2, es2);
    var r, r2 := Exec(lc, m, es).value, Exec(lc2, m * k, es2).value;
    var ts := TradesOf(PacketsOf(es));
    FlushedBars(lc, m, es);
    FlushedBars(lc2, m * k, es2);
    BookedAll(lc, m, es);
    RunOpens(lc, m, es);
    EmittedInOrder(lc, m, es);
    BareIsStamps(r.finished);
    BareIsStamps(r2.finished);
    AggregateBare(r.out, m * k);
    ResampledBars(ts, m, k, Plains(r.finished), Plains(r2.finished));
  }

  lemma {:induction false} BookedAll(lc: int, step: int, es: seq<Event>)
    requires step > 0 && Exec(lc, step, es).Some? && Exec(lc, step, es).value.agg.late == 0
    ensures Sane(PacketsOf(es)) && Exec(lc, step, es).value.booked == TradesOf(PacketsOf(es))
  {
    ExecKeeps(lc, step, es);
    RunPackets(lc, step, es);
  }
}
