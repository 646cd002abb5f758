/** When live and resampled bars agree whatever the prices, and the run in which they do not. */
module ArrivalPrices {
  import opened Common
  import opened Historical
  import opened Candles
  import opened Grouping
  import opened CandleRuns
  import opened CandleStream
  import opened LiveHistory
  import opened ArrivalOrder

  // ------------------------------------------------------------ a condition on stamps

  /** The last trade to arrive in the coarse bucket of `b` is stamped in `b`. */
  ghost predicate ArrivesLast(ts: seq<Trade>, b: int, m: int, n: int)
    requires m > 0 && n > 0
  {
    var o := Only(ts, Bucket(b, n), n);
    |o| > 0 && Bucket(Last(o).ts, m) == b
  }

  /** In every coarse bucket the last trade to arrive is stamped in the last fine bucket traded. */
  ghost predicate LastArrivals(ts: seq<Trade>, m: int, n: int)
    requires m > 0 && n > 0
  {
    forall b :: LastTraded(ts, b, m, n) ==> ArrivesLast(ts, b, m, n)
  }

  lemma {:induction false} TradedIsAligned(ts: seq<Trade>, b: int, m: int)
    requires m > 0 && |Only(ts, b, m)| > 0
    ensures Aligned(b, m)
  {
    var j := OnlyFrom(ts, b, m, 0);
    BucketAligned(ts[j].ts, m);
  }

  lemma {:induction false} LastArrivalsAgree(ts: seq<Trade>, m: int, k: int)
    requires m > 0 && k > 0 && m * k > 0 && LastArrivals(ts, m, m * k)
    ensures AgreeingCloses(ts, m, m * k)
  {
    var n := m * k;
    forall b | LastTraded(ts, b, m, n)
      ensures ClosePrice(ts, b, m) == ClosePrice(ts, Bucket(b, n), n)
    {
      assert ArrivesLast(ts, b, m, n);
      TradedIsAligned(ts, b, m);
      var o := Only(ts, Bucket(b, n), n);
      assert o == Front(o) + [Last(o)];
      OnlyMore(Front(o), Last(o), b, m);
      OnlyNests(ts, b, m, k);
    }
  }

  ghost predicate RisingPrices(ts: seq<Trade>) {
    forall i, j :: 0 <= i < j < |ts| ==> ts[i].price < ts[j].price
  }

  /** With all prices different, equal closes mean the same trade. */
  lemma {:induction false} RisingAgree(ts: seq<Trade>, m: int, k: int)
    requires m > 0 && k > 0 && m * k > 0 && RisingPrices(ts) && AgreeingCloses(ts, m, m * k)
    ensures LastArrivals(ts, m, m * k)
  {
    var n := m * k;
    forall b | LastTraded(ts, b, m, n)
      ensures ArrivesLast(ts, b, m, n)
    {
      var c := Bucket(b, n);
      assert ClosePrice(ts, b, m) == ClosePrice(ts, c, n);
      var i := OnlyFrom(ts, b, m, |Only(ts, b, m)| - 1);
      BucketNest(ts[i].ts, m, k);
      var x := OnlyHas(ts, c, n, i);
      var j := OnlyFrom(ts, c, n, |Only(ts, c, n)| - 1);
      assert ts[i].price == ts[j].price;
    }
  }

  /** The same trades at other prices. */
  ghost predicate SameStamps(a: seq<Trade>, b: seq<Trade>) {
    |a| == |b| && forall i :: 0 <= i < |a| ==> a[i].ts == b[i].ts
  }

  lemma StampsMore(f: seq<Trade>, t: Trade, g: seq<Trade>, u: Trade)
    requires |f| == |g|
    ensures SameStamps(f + [t], g + [u]) <==> SameStamps(f, g) && t.ts == u.ts
  {
    var a, b := f + [t], g + [u];
    assert a[|f|] == t && b[|g|] == u;
    assert forall i :: 0 <= i < |f| ==> a[i] == f[i] && b[i] == g[i];
  }

  lemma {:induction false} OnlyStamps(a: seq<Trade>, b: seq<Trade>, c: int, step: int)
    requires step > 0 && SameStamps(a, b)
    ensures SameStamps(Only(a, c, step), Only(b, c, step))
  {
    if |a| > 0 {
      var f, t, g, u := Front(a), Last(a), Front(b), Last(b);
      assert a == f + [t] && b == g + [u];
      StampsMore(f, t, g, u);
      OnlyStamps(f, g, c, step);
      OnlyMore(f, t, c, step);
      OnlyMore(g, u, c, step);
      StampsMore(Only(f, c, step), t, Only(g, c, step), u);
    }
  }

  lemma {:induction false} ArrivalsByStamp(a: seq<Trade>, b: seq<Trade>, m: int, n: int)
    requires m > 0 && n > 0 && SameStamps(a, b) && LastArrivals(a, m, n)
    ensures LastArrivals(b, m, n)
  {
    forall c | LastTraded(b, c, m, n)
      ensures ArrivesLast(b, c, m, n)
    {
      OnlyStamps(a, b, c, m);
      OnlyStamps(a, b, Bucket(c, n), n);
      assert LastTraded(a, c, m, n);
      assert ArrivesLast(a, c, m, n);
    }
  }

  // ------------------------------------------------------ the same run at other prices

  /** The same packet at another price. */
  predicate SameButPrice(p: Packet, q: Packet) {
    q == p.(price := q.price) && q.price.Some? && q.price.value > 0.0
  }

  predicate EventRepriced(e: Event, f: Event) {
    match e
    case Seen(p) => f.Seen? && SameButPrice(p, f.p)
    case Tick(_) => e == f
  }

  predicate Repriced(es: seq<Event>, fs: seq<Event>) {
    |es| == |fs| && forall i :: 0 <= i < |es| ==> EventRepriced(es[i], fs[i])
  }

  /** The same bar at other prices. */
  predicate BarLike(b: Bar, c: Bar) {
    c.start == b.start && c.volume == b.volume && c.oi == b.oi && c.partial == b.partial
  }

  predicate BarsLike(bs: seq<Bar>, cs: seq<Bar>) {
    |bs| == |cs| && forall i :: 0 <= i < |bs| ==> BarLike(bs[i], cs[i])
  }

  predicate OpenLike(a: Agg, c: Agg) {
    && BarsLike(a.closing, c.closing) && a.current.Some? == c.current.Some?
    && (a.current.Some? ==> BarLike(a.current.value, c.current.value))
  }

  /** The same aggregator at other prices. */
  predicate AggLike(a: Agg, c: Agg) {
    c == a.(closing := c.closing, current := c.current) && OpenLike(a, c)
  }

  lemma {:induction false} FindLike(bs: seq<Bar>, cs: seq<Bar>, start: int)
    requires BarsLike(bs, cs)
    ensures Find(bs, start) == Find(cs, start)
  {
    if |bs| > 0 {
      assert BarLike(bs[0], cs[0]);
      if bs[0].start != start {
        TailLike(bs, cs);
        FindLike(bs[1..], cs[1..], start);
      }
    }
  }

  lemma TailLike(bs: seq<Bar>, cs: seq<Bar>)
    requires BarsLike(bs, cs) && |bs| > 0
    ensures BarsLike(bs[1..], cs[1..])
  {
    forall i | 0 <= i < |bs[1..]|
      ensures BarLike(bs[1..][i], cs[1..][i])
    {
      assert bs[1..][i] == bs[i + 1] && cs[1..][i] == cs[i + 1];
    }
  }

  lemma BookLike(a: Agg, c: Agg, t: Trade, u: Trade, oi: nat)
    requires a.step > 0 && AggLike(a, c) && u == t.(price := u.price)
    ensures AggLike(Book(a, t, oi), Book(c, u, oi))
  {
    var b := Bucket(t.ts, a.step);
    FindLike(a.closing, c.closing, b);
    match PlaceOf(a, b)
    case Closing(i) =>
      ReplacedLike(a.closing, c.closing, i, Add(a.closing[i], t.price, t.volume, oi),
          Add(c.closing[i], u.price, t.volume, oi));
    case Next => JoinedBarsLike(a.closing, c.closing, a.current, c.current);
    case _ =>
  }

  lemma ReplacedLike(bs: seq<Bar>, cs: seq<Bar>, i: nat, b: Bar, c: Bar)
    requires BarsLike(bs, cs) && i < |bs| && (BarLike(bs[i], cs[i]) ==> BarLike(b, c))
    ensures BarsLike(bs[i := b], cs[i := c])
  {
  }

  lemma JoinedBarsLike(bs: seq<Bar>, cs: seq<Bar>, b: Option<Bar>, c: Option<Bar>)
    requires BarsLike(bs, cs) && b.Some? == c.Some? && (b.Some? ==> BarLike(b.value, c.value))
    ensures BarsLike(bs + OptSeq(b), cs + OptSeq(c))
  {
  }

  lemma PacketLike(a: Agg, c: Agg, p: Packet, q: Packet)
    requires a.step > 0 && AggLike(a, c) && SameButPrice(p, q) && AfterPacket(a, p).1.None?
    ensures AfterPacket(c, q).1.None? && AggLike(AfterPacket(a, p).0, AfterPacket(c, q).0)
  {
    var delta := Delta(a, p.cumulative.value);
    var a2 := a.(generation := Some(p.generation), lastVolume := p.cumulative, lastExchange := p.ts);
    var c2 := c.(generation := Some(q.generation), lastVolume := q.cumulative, lastExchange := q.ts);
    if a.started {
      TakeLike(a2, c2, p, q, delta);
    }
  }

  lemma TakeLike(a: Agg, c: Agg, p: Packet, q: Packet, delta: nat)
    requires a.step > 0 && AggLike(a, c) && SameButPrice(p, q) && p.ts.Some? && p.price.Some?
    ensures AggLike(Take(a, p, delta), Take(c, q, delta))
  {
    var last := Some(if a.lastTrade.Some? then Max(a.lastTrade.value, TradeTime(p)) else TradeTime(p));
    var t, u := Trade(TradeTime(p), p.price.value, delta), Trade(TradeTime(q), q.price.value, delta);
    BookLike(a.(lastTrade := last), c.(lastTrade := last), t, u, p.oi);
  }

  lemma {:induction false} DueLike(bs: seq<Bar>, cs: seq<Bar>, step: int, now: int)
    requires BarsLike(bs, cs)
    ensures DueCount(bs, step, now) == DueCount(cs, step, now)
  {
    if |bs| > 0 {
      assert BarLike(bs[0], cs[0]);
      if now >= DueMs(bs[0].start, step) {
        TailLike(bs, cs);
        DueLike(bs[1..], cs[1..], step, now);
      }
    }
  }

  lemma {:induction false} ClosedLike(last: int, bs: seq<Bar>, cs: seq<Bar>, step: int)
    requires BarsLike(bs, cs)
    ensures ClosedUpTo(last, bs, step) == ClosedUpTo(last, cs, step)
  {
    if |bs| > 0 {
      assert BarLike(bs[|bs| - 1], cs[|bs| - 1]);
      ClosedLike(last, Front(bs), Front(cs), step);
    }
  }

  lemma ClockLike(a: Agg, c: Agg, now: int)
    requires AggLike(a, c)
    ensures AggLike(AfterClock(a, now), AfterClock(c, now))
  {
    DueLike(a.closing, c.closing, a.step, now);
    ClosedLike(a.lastClose, Finished(a, now), Finished(c, now), a.step);
  }

  lemma RepricedFront(es: seq<Event>, fs: seq<Event>)
    requires Repriced(es, fs) && |es| > 0
    ensures Repriced(Front(es), Front(fs)) && EventRepriced(Last(es), Last(fs))
  {
    assert EventRepriced(es[|es| - 1], fs[|es| - 1]);
    assert forall i :: 0 <= i < |Front(es)| ==> Front(es)[i] == es[i] && Front(fs)[i] == fs[i];
  }

  /** A run is accepted at any prices, and its bars open and close alike. */
  lemma {:induction false} RunLike(lc: int, step: int, es: seq<Event>, fs: seq<Event>)
    requires step > 0 && Exec(lc, step, es).Some? && Repriced(es, fs)
    ensures Exec(lc, step, fs).Some? && AggLike(Exec(lc, step, es).value.agg, Exec(lc, step, fs).value.agg)
  {
    if |es| > 0 {
      RepricedFront(es, fs);
      RunLike(lc, step, Front(es), Front(fs));
      var r, q := Exec(lc, step, Front(es)).value, Exec(lc, step, Front(fs)).value;
      match Last(es)
      case Seen(p) => PacketLike(r.agg, q.agg, p, Last(fs).p);
      case Tick(now) => ClockLike(r.agg, q.agg, now);
    }
  }

  predicate PacketsRepriced(ps: seq<Packet>, qs: seq<Packet>) {
    |ps| == |qs| && forall i :: 0 <= i < |ps| ==> SameButPrice(ps[i], qs[i])
  }

  lemma {:induction false} PacketsLike(es: seq<Event>, fs: seq<Event>)
    requires Repriced(es, fs)
    ensures PacketsRepriced(PacketsOf(es), PacketsOf(fs))
  {
    if |es| > 0 {
      RepricedFront(es, fs);
      PacketsLike(Front(es), Front(fs));
    }
  }

  lemma SaneLike(ps: seq<Packet>, qs: seq<Packet>)
    requires PacketsRepriced(ps, qs) && Sane(ps)
    ensures Sane(qs)
  {
    forall i | 0 <= i < |qs|
      ensures Complete(qs[i]) && (i > 0 ==> NotBelow(qs[i], qs[i - 1]))
    {
      assert SameButPrice(ps[i], qs[i]) && Complete(ps[i]);
      if i > 0 {
        assert SameButPrice(ps[i - 1], qs[i - 1]) && NotBelow(ps[i], ps[i - 1]);
      }
    }
  }

  lemma TradeLike(ps: seq<Packet>, qs: seq<Packet>, i: nat)
    requires PacketsRepriced(ps, qs) && Sane(ps) && Sane(qs) && i < |ps|
    ensures IsTrade(ps, i) <==> IsTrade(qs, i)
    ensures TradeOf(ps, i).ts == TradeOf(qs, i).ts
  {
    assert SameButPrice(ps[i], qs[i]) && (i > 0 ==> SameButPrice(ps[i - 1], qs[i - 1]));
    forall j | 0 <= j < i
      ensures TradeTime(ps[j]) == TradeTime(qs[j])
    {
      assert SameButPrice(ps[j], qs[j]) && Complete(ps[j]);
    }
  }

  /** The trades of repriced packets carry the same stamps. */
  lemma {:induction false} TapeLike(ps: seq<Packet>, qs: seq<Packet>)
    requires PacketsRepriced(ps, qs) && Sane(ps) && Sane(qs)
    ensures SameStamps(TradesOf(ps), TradesOf(qs))
  {
    if |ps| > 0 {
      var f, g := Front(ps), Front(qs);
      assert forall i :: 0 <= i < |f| ==> f[i] == ps[i] && g[i] == qs[i];
      TapeLike(f, g);
      TradeLike(ps, qs, |ps| - 1);
      StampsMore(TradesOf(f), TradeOf(ps, |ps| - 1), TradesOf(g), TradeOf(qs, |ps| - 1));
    }
  }

  lemma {:induction false} SessionsLike(
    lc: int, m: int, k: int, es: seq<Event>, lc2: int, es2: seq<Event>, fs: seq<Event>, fs2: seq<Event>)
    requires Sessions(lc, m, k, es, lc2, es2) && Repriced(es, fs) && Repriced(es2, fs2)
             && PacketsOf(fs) == PacketsOf(fs2)
    ensures Sessions(lc, m, k, fs, lc2, fs2) && SameStamps(TradesOf(PacketsOf(es)), TradesOf(PacketsOf(fs)))
  {
    RunLike(lc, m, es, fs);
    RunLike(lc2, m * k, es2, fs2);
    PacketsLike(es, fs);
    var ps, qs := PacketsOf(es), PacketsOf(fs);
    SaneLike(ps, qs);
    TapeLike(ps, qs);
    JoinedLike(ps, qs, m * k);
    NoneOpen(Exec(lc, m, es).value.agg, Exec(lc, m, fs).value.agg);
    NoneOpen(Exec(lc2, m * k, es2).value.agg, Exec(lc2, m * k, fs2).value.agg);
  }

  lemma JoinedLike(ps: seq<Packet>, qs: seq<Packet>, step: int)
    requires step > 0 && PacketsRepriced(ps, qs) && Sane(ps) && Sane(qs)
    ensures JoinedPartWay(ps, step) <==> JoinedPartWay(qs, step)
  {
    if |ps| > 0 {
      assert SameButPrice(ps[0], qs[0]);
    }
  }

  lemma NoneOpen(a: Agg, c: Agg)
    requires AggLike(a, c) && OpenBars(a) == []
    ensures OpenBars(c) == []
  {
    assert |OpenBars(c)| == |OpenBars(a)|;
  }

  // --------------------------------------------------------------- rising prices

  /** The packets at prices 1, 2, 3 and so on. */
  function Raised(ps: seq<Packet>): (qs: seq<Packet>)
    ensures |qs| == |ps|
  {
    if |ps| == 0 then [] else Raised(Front(ps)) + [Last(ps).(price := Some(|ps| as real))]
  }

  function RaisedEvents(es: seq<Event>): seq<Event> {
    if |es| == 0 then []
    else
      RaisedEvents(Front(es)) + [match Last(es)
                                 case Seen(p) => Seen(p.(price := Some((|PacketsOf(Front(es))| + 1) as real)))
                                 case Tick(_) => Last(es)]
  }

  lemma RepricedMore(f: seq<Event>, e: Event, g: seq<Event>, h: Event)
    requires Repriced(f, g) && EventRepriced(e, h)
    ensures Repriced(f + [e], g + [h])
  {
  }

  lemma {:induction false} PacketsMore(f: seq<Event>, e: Event)
    ensures PacketsOf(f + [e]) == if e.Seen? then PacketsOf(f) + [e.p] else PacketsOf(f)
  {
    assert Front(f + [e]) == f;
    assert PacketsOf(f) + [] == PacketsOf(f);
  }

  lemma {:induction false} RaisedMore(ps: seq<Packet>, p: Packet)
    ensures Raised(ps + [p]) == Raised(ps) + [p.(price := Some((|ps| + 1) as real))]
  {
    assert Front(ps + [p]) == ps;
  }

  lemma {:induction false} RaisedIs(es: seq<Event>)
    ensures Repriced(es, RaisedEvents(es)) && PacketsOf(RaisedEvents(es)) == Raised(PacketsOf(es))
  {
    if |es| > 0 {
      var f, e, h := Front(es), Last(es), Last(RaisedEvents(es));
      RaisedIs(f);
      RepricedMore(f, e, RaisedEvents(f), h);
      assert f + [e] == es && RaisedEvents(f) + [h] == RaisedEvents(es);
      PacketsMore(f, e);
      PacketsMore(RaisedEvents(f), h);
      if e.Seen? {
        RaisedMore(PacketsOf(f), e.p);
      }
    }
  }

  ghost predicate PricedUpTo(ts: seq<Trade>, n: nat) {
    RisingPrices(ts) && forall i :: 0 <= i < |ts| ==> ts[i].price <= n as real
  }

  lemma RiseMore(ts: seq<Trade>, n: nat, t: Trade)
    requires PricedUpTo(ts, n) && t.price == (n + 1) as real
    ensures PricedUpTo(ts, n + 1) && PricedUpTo(ts + [t], n + 1)
  {
  }

  /** Their trades have rising prices. */
  lemma {:induction false} RaisedRise(ps: seq<Packet>)
    requires Sane(Raised(ps))
    ensures PricedUpTo(TradesOf(Raised(ps)), |ps|)
  {
    if |ps| > 0 {
      var qs, n := Raised(ps), |ps| - 1;
      assert Front(qs) == Raised(Front(ps));
      RaisedRise(Front(ps));
      RiseMore(TradesOf(Front(qs)), n, TradeOf(qs, n));
      assert TradesOf(Front(qs)) + [] == TradesOf(Front(qs));
    }
  }

  // -------------------------------------------------------------- for all prices

  /** The resampled bars of one run are the bars of the other, open interest aside. */
  ghost predicate BarsMatch(lc: int, m: int, k: int, es: seq<Event>, lc2: int, es2: seq<Event>)
    requires m > 0 && k > 0 && m * k > 0
  {
    && Exec(lc, m, es).Some? && Exec(lc2, m * k, es2).Some? && Timed(Exec(lc, m, es).value.out)
    && Bare(Aggregated(Exec(lc, m, es).value.out, m * k)) == Bare(Exec(lc2, m * k, es2).value.out)
  }

  /** They match whatever the prices of the packets are. */
  ghost predicate MatchAtAnyPrices(lc: int, m: int, k: int, es: seq<Event>, lc2: int, es2: seq<Event>)
    requires m > 0 && k > 0 && m * k > 0
  {
    forall fs, fs2 :: Repriced(es, fs) && Repriced(es2, fs2) && PacketsOf(fs) == PacketsOf(fs2) ==>
        BarsMatch(lc, m, k, fs, lc2, fs2)
  }

  /** Live and history agree at all prices exactly when, in every coarse bucket, the last trade to arrive is
      stamped in the last fine bucket traded. */
  lemma {:induction false} MatchIffLastArrivals(lc: int, m: int, k: int, es: seq<Event>, lc2: int, es2: seq<Event>)
    requires Sessions(lc, m, k, es, lc2, es2)
    ensures Sane(PacketsOf(es))
    ensures MatchAtAnyPrices(lc, m, k, es, lc2, es2) <==> LastArrivals(TradesOf(PacketsOf(es)), m, m * k)
  {
    var ts := TradesOf(PacketsOf(es));
    if LastArrivals(ts, m, m * k) {
      forall fs, fs2 | Repriced(es, fs) && Repriced(es2, fs2) && PacketsOf(fs) == PacketsOf(fs2)
        ensures BarsMatch(lc, m, k, fs, lc2, fs2)
      {
        SessionsLike(lc, m, k, es, lc2, es2, fs, fs2);
        ArrivalsByStamp(ts, TradesOf(PacketsOf(fs)), m, m * k);
        LastArrivalsAgree(TradesOf(PacketsOf(fs)), m, k);
        LiveMatchesHistoryExactly(lc, m, k, fs, lc2, fs2);
      }
    }
    if MatchAtAnyPrices(lc, m, k, es, lc2, es2) {
      RisingMatch(lc, m, k, es, lc2, es2);
    }
  }

  lemma {:induction false} RisingMatch(lc: int, m: int, k: int, es: seq<Event>, lc2: int, es2: seq<Event>)
    requires Sessions(lc, m, k, es, lc2, es2) && MatchAtAnyPrices(lc, m, k, es, lc2, es2)
    ensures LastArrivals(TradesOf(PacketsOf(es)), m, m * k)
  {
    var fs, fs2 := RaisedEvents(es), RaisedEvents(es2);
    RaisedIs(es);
    RaisedIs(es2);
    SessionsLike(lc, m, k, es, lc2, es2, fs, fs2);
    assert BarsMatch(lc, m, k, fs, lc2, fs2);
    LiveMatchesHistoryExactly(lc, m, k, fs, lc2, fs2);
    var ts := TradesOf(PacketsOf(fs));
    RaisedRise(PacketsOf(es));
    RisingAgree(ts, m, k);
    ArrivalsByStamp(ts, TradesOf(PacketsOf(es)), m, m * k);
  }

  // -------------------------------------------------------------- a run that differs

  /** A packet received at its exchange time. */
  function PacketAt(ts: int, tradeTs: int, price: real, cumulative: nat): Packet {
    Packet(true, Some(ts), ts, true, Some(tradeTs), Some(price), 0, Some(cumulative), 0)
  }

  /** A packet on the first boundary, one on the second, and in the same second a trade stamped just before
      it; clock events come right after each packet, in the grace of the first bar. */
  function LateStampAt(m: int, t1: int, t2: int, t3: int): seq<Event> {
    [Seen(PacketAt(0, 0, 1.0, 0)), Seen(PacketAt(m, m, 2.0, 1)), Tick(t1), Seen(PacketAt(m, m - 1, 3.0, 2)), Tick(t2),
        Tick(t3)]
  }

  function LateStamp(m: int, k: int): seq<Event> {
    LateStampAt(m, m * 1_000 + 200, m * 1_000 + 500, DueMs(0, m * k))
  }

  ghost function StateAfter(a: Agg, e: Event): Option<Agg>
    requires a.step > 0
  {
    match e
    case Seen(p) => if AfterPacket(a, p).1.Some? then None else Some(AfterPacket(a, p).0)
    case Tick(now) => Some(AfterClock(a, now))
  }

  ghost predicate IsStep(a: Agg, e: Event, r: Option<Agg>) {
    forall x {:trigger StateAfter(x, e)} :: x == a && x.step > 0 ==> r == StateAfter(x, e)
  }

  /** The aggregator after one event, None if it is refused: its formula is in `StepIs`. */
  ghost function Step(a: Agg, e: Event): Option<Agg>
    requires a.step > 0
  {
    assert IsStep(a, e, StateAfter(a, e));
    var r :| IsStep(a, e, r);
    r
  }

  lemma StepIs(a: Agg, e: Event)
    requires a.step > 0
    ensures Step(a, e) == StateAfter(a, e)
  {
    assert IsStep(a, e, Step(a, e));
  }

  ghost function StateOf(r: Option<Run>): Option<Agg> {
    if r.None? then None else Some(r.value.agg)
  }

  ghost predicate IsEnd(lc: int, step: int, es: seq<Event>, r: Option<Agg>) {
    forall x :: x == step && x > 0 ==> r == StateOf(Exec(lc, x, es))
  }

  /** The aggregator after a run, None if it was refused: its formula is in `EndIs`. */
  ghost function End(lc: int, step: int, es: seq<Event>): Option<Agg>
    requires step > 0
  {
    assert IsEnd(lc, step, es, StateOf(Exec(lc, step, es)));
    var r :| IsEnd(lc, step, es, r);
    r
  }

  lemma {:induction false} EndIs(lc: int, step: int, es: seq<Event>)
    requires step > 0
    ensures End(lc, step, es) == StateOf(Exec(lc, step, es))
  {
    assert IsEnd(lc, step, es, End(lc, step, es));
  }

  ghost predicate EndsWith(lc: int, step: int, es: seq<Event>, a: Agg)
    requires step > 0
  {
    End(lc, step, es) == Some(a)
  }

  ghost predicate Moves(a: Agg, e: Event, b: Agg) {
    a.step > 0 && Step(a, e) == Some(b)
  }

  lemma {:induction false} MoveMore(lc: int, step: int, es: seq<Event>, a: Agg, e: Event, b: Agg)
    requires step > 0 && EndsWith(lc, step, es, a) && Moves(a, e, b)
    ensures EndsWith(lc, step, es + [e], b)
  {
    assert Front(es + [e]) == es;
    EndIs(lc, step, es);
    EndIs(lc, step, es + [e]);
    StepIs(a, e);
  }

  lemma {:induction false} ThreeMoves(
    step: int, es: seq<Event>, a0: Agg, x: Event, y: Event, z: Event, a1: Agg, a2: Agg, a3: Agg)
    requires step > 0 && EndsWith(0, step, es, a0) && Moves(a0, x, a1) && Moves(a1, y, a2) && Moves(a2, z, a3)
    ensures EndsWith(0, step, es + [x] + [y] + [z], a3)
  {
    MoveMore(0, step, es, a0, x, a1);
    MoveMore(0, step, es + [x], a1, y, a2);
    MoveMore(0, step, es + [x] + [y], a2, z, a3);
  }

  lemma {:induction false} SixMoves(
    step: int, e0: Event, e1: Event, e2: Event, e3: Event, e4: Event, e5: Event,
    a1: Agg, a2: Agg, a3: Agg, a4: Agg, a5: Agg, a6: Agg)
    requires step > 0 && Moves(Fresh(0, step), e0, a1) && Moves(a1, e1, a2) && Moves(a2, e2, a3)
    requires Moves(a3, e3, a4) && Moves(a4, e4, a5) && Moves(a5, e5, a6)
    ensures EndsWith(0, step, [] + [e0] + [e1] + [e2] + [e3] + [e4] + [e5], a6)
  {
    NothingMoved(step);
    ThreeMoves(step, [], Fresh(0, step), e0, e1, e2, a1, a2, a3);
    ThreeMoves(step, [] + [e0] + [e1] + [e2], a3, e3, e4, e5, a4, a5, a6);
  }

  lemma SixIs(e0: Event, e1: Event, e2: Event, e3: Event, e4: Event, e5: Event)
    ensures [] + [e0] + [e1] + [e2] + [e3] + [e4] + [e5] == [e0, e1, e2, e3, e4, e5]
  {
  }

  lemma {:induction false} NothingMoved(step: int)
    requires step > 0
    ensures EndsWith(0, step, [], Fresh(0, step))
  {
    EndIs(0, step, []);
  }

  /** The aggregator of these runs with bars `closing` and `current`. */
  function Building(step: int, closing: seq<Bar>, current: Bar, last: int, cumulative: nat): Agg {
    Agg(step, closing, Some(current), 0, true, Some(cumulative), Some(0), Some(last), Some(last), None, 0, 0)
  }

  lemma FirstSeen(step: int)
    requires step > 0 && Bucket(0, step) == 0
    ensures Moves(Fresh(0, step), Seen(PacketAt(0, 0, 1.0, 0)), Building(step, [], NewBar(0, 1.0, 0, 0, false), 0, 0))
  {
    StepIs(Fresh(0, step), Seen(PacketAt(0, 0, 1.0, 0)));
  }

  /** A trade into the current bar. */
  lemma SeenHere(step: int, b: Bar, last: int, cum: nat, ts: int, tradeTs: int, price: real)
    requires step > 0 && price > 0.0 && tradeTs <= ts && last <= ts && Bucket(tradeTs, step) == b.start >= 0
    requires Max(last, tradeTs) == ts
    ensures Moves(Building(step, [], b, last, cum), Seen(PacketAt(ts, tradeTs, price, cum + 1)),
                  Building(step, [], Add(b, price, 1, 0), ts, cum + 1))
  {
    StepIs(Building(step, [], b, last, cum), Seen(PacketAt(ts, tradeTs, price, cum + 1)));
  }

  /** A trade that starts the next bar. */
  lemma SeenNext(step: int, b: Bar, last: int, cum: nat, ts: int, price: real)
    requires step > 0 && price > 0.0 && last <= ts && Bucket(ts, step) > b.start >= 0
    ensures Moves(Building(step, [], b, last, cum), Seen(PacketAt(ts, ts, price, cum + 1)),
                  Building(step, [b], NewBar(Bucket(ts, step), price, 1, 0, false), ts, cum + 1))
  {
    StepIs(Building(step, [], b, last, cum), Seen(PacketAt(ts, ts, price, cum + 1)));
    assert [] + [b] == [b];
  }

  /** A trade into the bar in its grace. */
  lemma SeenBack(step: int, b: Bar, c: Bar, ts: int, cum: nat, tradeTs: int, price: real)
    requires step > 0 && price > 0.0 && tradeTs <= ts && Bucket(tradeTs, step) == b.start >= 0
    ensures Moves(Building(step, [b], c, ts, cum), Seen(PacketAt(ts, tradeTs, price, cum + 1)),
                  Building(step, [Add(b, price, 1, 0)], c, ts, cum + 1))
  {
    StepIs(Building(step, [b], c, ts, cum), Seen(PacketAt(ts, tradeTs, price, cum + 1)));
    assert Find([b], b.start) == 0;
    assert [b][0 := Add(b, price, 1, 0)] == [Add(b, price, 1, 0)];
  }

  lemma TickEarly(step: int, closing: seq<Bar>, c: Bar, last: int, cum: nat, now: int)
    requires step > 0 && now < DueMs(if |closing| > 0 then closing[0].start else c.start, step)
    ensures Moves(Building(step, closing, c, last, cum), Tick(now), Building(step, closing, c, last, cum))
  {
    StepIs(Building(step, closing, c, last, cum), Tick(now));
    assert closing[0..] == closing && closing[..0] == [];
  }

  lemma TickMoves(a: Agg, now: int)
    requires a.step > 0
    ensures Moves(a, Tick(now), AfterClock(a, now))
  {
    StepIs(a, Tick(now));
  }

  /** A clock event after everything is due leaves nothing open. */
  lemma {:induction false} AllDue(a: Agg, now: int)
    requires a.current.Some? && DueCount(a.closing, a.step, now) == |a.closing|
             && now >= DueMs(a.current.value.start, a.step)
    ensures OpenBars(AfterClock(a, now)) == [] && AfterClock(a, now).late == a.late
  {
  }

  lemma {:induction false} OneDue(b: Bar, step: int, now: int)
    requires now >= DueMs(b.start, step)
    ensures DueCount([b], step, now) == 1
  {
    assert [b][1..] == [];
  }

  /** The times of the run lie in the first two fine buckets and in one coarse bucket. */
  lemma LateStampBuckets(m: int, k: int)
    requires m > 0 && k >= 2
    ensures 2 * m <= m * k
    ensures Bucket(0, m) == 0 && Bucket(m - 1, m) == 0 && Bucket(m, m) == m
    ensures Bucket(0, m * k) == Bucket(m - 1, m * k) == Bucket(m, m * k) == 0
  {
    MulMono(2, k, m);
    MultipleAligned(0, m);
    MultipleAligned(1, m);
    MultipleAligned(0, m * k);
    BucketUnique(m - 1, 0, m);
    BucketUnique(m - 1, 0, m * k);
    BucketUnique(m, 0, m * k);
  }

  lemma {:induction false} LateStampMoves(
    m: int, step: int, t1: int, t2: int, t3: int, a1: Agg, a2: Agg, a3: Agg, a4: Agg)
    requires step > 0 && Moves(Fresh(0, step), Seen(PacketAt(0, 0, 1.0, 0)), a1)
             && Moves(a1, Seen(PacketAt(m, m, 2.0, 1)), a2)
    requires Moves(a2, Tick(t1), a2) && Moves(a2, Seen(PacketAt(m, m - 1, 3.0, 2)), a3)
    requires Moves(a3, Tick(t2), a3) && Moves(a3, Tick(t3), a4)
    ensures EndsWith(0, step, LateStampAt(m, t1, t2, t3), a4)
  {
    var p, q, x := Seen(PacketAt(0, 0, 1.0, 0)), Seen(PacketAt(m, m, 2.0, 1)), Seen(PacketAt(m, m - 1, 3.0, 2));
    SixMoves(step, p, q, Tick(t1), x, Tick(t2), Tick(t3), a1, a2, a2, a3, a3, a4);
    SixIs(p, q, Tick(t1), x, Tick(t2), Tick(t3));
  }

  lemma {:induction false} FineEnds(m: int, t1: int, t2: int, t3: int) returns (a: Agg)
    requires m > 0 && t1 < DueMs(0, m) && t2 < DueMs(0, m) && t3 >= DueMs(m, m)
    requires Bucket(0, m) == 0 && Bucket(m - 1, m) == 0 && Bucket(m, m) == m
    ensures EndsWith(0, m, LateStampAt(m, t1, t2, t3), a) && a.late == 0 && OpenBars(a) == []
  {
    var b, c := NewBar(0, 1.0, 0, 0, false), NewBar(m, 2.0, 1, 0, false);
    FirstSeen(m);
    SeenNext(m, b, 0, 0, m, 2.0);
    SeenBack(m, b, c, m, 1, m - 1, 3.0);
    a := FineMoves(m, t1, t2, t3, b, Add(b, 3.0, 1, 0), c);
  }

  lemma {:induction false} FineMoves(m: int, t1: int, t2: int, t3: int, b: Bar, b2: Bar, c: Bar) returns (a: Agg)
    requires m > 0 && t1 < DueMs(b.start, m) && t2 < DueMs(b2.start, m) && t3 >= DueMs(b2.start, m)
             && t3 >= DueMs(c.start, m)
    requires Moves(Fresh(0, m), Seen(PacketAt(0, 0, 1.0, 0)), Building(m, [], b, 0, 0))
    requires Moves(Building(m, [], b, 0, 0), Seen(PacketAt(m, m, 2.0, 1)), Building(m, [b], c, m, 1))
    requires Moves(Building(m, [b], c, m, 1), Seen(PacketAt(m, m - 1, 3.0, 2)), Building(m, [b2], c, m, 2))
    ensures EndsWith(0, m, LateStampAt(m, t1, t2, t3), a) && a.late == 0 && OpenBars(a) == []
  {
    var a1, a2, a3 := Building(m, [], b, 0, 0), Building(m, [b], c, m, 1), Building(m, [b2], c, m, 2);
    TickEarly(m, [b], c, m, 1, t1);
    TickEarly(m, [b2], c, m, 2, t2);
    OneDue(b2, m, t3);
    AllDue(a3, t3);
    a := AfterClock(a3, t3);
    TickMoves(a3, t3);
    LateStampMoves(m, m, t1, t2, t3, a1, a2, a3, a);
  }

  lemma {:induction false} CoarseEnds(m: int, n: int, t1: int, t2: int, t3: int) returns (a: Agg)
    requires m > 0 && n > 0 && t1 < DueMs(0, n) && t2 < DueMs(0, n) && t3 >= DueMs(0, n)
    requires Bucket(0, n) == Bucket(m - 1, n) == Bucket(m, n) == 0
    ensures EndsWith(0, n, LateStampAt(m, t1, t2, t3), a) && a.late == 0 && OpenBars(a) == []
  {
    var b := NewBar(0, 1.0, 0, 0, false);
    var b2 := Add(b, 2.0, 1, 0);
    FirstSeen(n);
    SeenHere(n, b, 0, 0, m, m, 2.0);
    SeenHere(n, b2, m, 1, m, m - 1, 3.0);
    a := CoarseMoves(m, n, t1, t2, t3, b, b2, Add(b2, 3.0, 1, 0));
  }

  lemma {:induction false} CoarseMoves(
      m: int, n: int, t1: int, t2: int, t3: int, b: Bar, b2: Bar, b3: Bar) returns (a: Agg)
    requires m > 0 && n > 0 && t1 < DueMs(b2.start, n) && t2 < DueMs(b3.start, n) && t3 >= DueMs(b3.start, n)
    requires Moves(Fresh(0, n), Seen(PacketAt(0, 0, 1.0, 0)), Building(n, [], b, 0, 0))
    requires Moves(Building(n, [], b, 0, 0), Seen(PacketAt(m, m, 2.0, 1)), Building(n, [], b2, m, 1))
    requires Moves(Building(n, [], b2, m, 1), Seen(PacketAt(m, m - 1, 3.0, 2)), Building(n, [], b3, m, 2))
    ensures EndsWith(0, n, LateStampAt(m, t1, t2, t3), a) && a.late == 0 && OpenBars(a) == []
  {
    var a1, a2, a3 := Building(n, [], b, 0, 0), Building(n, [], b2, m, 1), Building(n, [], b3, m, 2);
    TickEarly(n, [], b2, m, 1, t1);
    TickEarly(n, [], b3, m, 2, t2);
    AllDue(a3, t3);
    a := AfterClock(a3, t3);
    TickMoves(a3, t3);
    LateStampMoves(m, n, t1, t2, t3, a1, a2, a3, a);
  }

  lemma {:induction false} LateStampPackets(m: int, t1: int, t2: int, t3: int)
    ensures PacketsOf(LateStampAt(m, t1, t2, t3))
            == [PacketAt(0, 0, 1.0, 0), PacketAt(m, m, 2.0, 1), PacketAt(m, m - 1, 3.0, 2)]
  {
    var e1, e2 := [] + [Seen(PacketAt(0, 0, 1.0, 0))], Seen(PacketAt(m, m, 2.0, 1));
    var e3, e4 := e1 + [e2] + [Tick(t1)], Seen(PacketAt(m, m - 1, 3.0, 2));
    PacketsMore([], Seen(PacketAt(0, 0, 1.0, 0)));
    PacketsMore(e1, e2);
    PacketsMore(e1 + [e2], Tick(t1));
    PacketsMore(e3, e4);
    PacketsMore(e3 + [e4], Tick(t2));
    PacketsMore(e3 + [e4] + [Tick(t2)], Tick(t3));
    assert e3 + [e4] + [Tick(t2)] + [Tick(t3)] == LateStampAt(m, t1, t2, t3);
  }

  lemma {:induction false} TradesMore(ps: seq<Packet>, p: Packet)
    requires Sane(ps + [p]) && Sane(ps)
    ensures TradesOf(ps + [p]) == if IsTrade(ps + [p], |ps|) then TradesOf(ps) + [TradeOf(ps + [p], |ps|)]
            else TradesOf(ps)
  {
    assert Front(ps + [p]) == ps;
    assert TradesOf(ps) + [] == TradesOf(ps);
  }

  lemma {:induction false} LateStampTrades(m: int)
    requires m > 0
    ensures var ps := [PacketAt(0, 0, 1.0, 0), PacketAt(m, m, 2.0, 1), PacketAt(m, m - 1, 3.0, 2)];
            Sane(ps) && TradesOf(ps) == [Trade(0, 1.0, 0), Trade(m, 2.0, 1), Trade(m - 1, 3.0, 1)]
  {
    var p, q, r := PacketAt(0, 0, 1.0, 0), PacketAt(m, m, 2.0, 1), PacketAt(m, m - 1, 3.0, 2);
    var two := [p] + [q];
    FirstTrade(p);
    TradesMore([p], q);
    TradesMore(two, r);
    assert two + [r] == [p, q, r];
  }

  /** One event sequence is both runs of a session. */
  lemma {:induction false} OneSession(m: int, k: int, es: seq<Event>, a: Agg, b: Agg)
    requires m > 0 && k > 0 && m * k > 0 && EndsWith(0, m, es, a) && EndsWith(0, m * k, es, b)
    requires a.late == 0 && b.late == 0 && OpenBars(a) == [] && OpenBars(b) == []
    requires Sane(PacketsOf(es)) && !JoinedPartWay(PacketsOf(es), m * k)
    ensures Sessions(0, m, k, es, 0, es)
  {
    EndIs(0, m, es);
    EndIs(0, m * k, es);
  }

  lemma {:induction false} LateStampSession(m: int, k: int, es: seq<Event>)
    requires m > 0 && k >= 2 && es == LateStamp(m, k)
    ensures m * k > 0 && Sessions(0, m, k, es, 0, es)
    ensures !AgreeingCloses(TradesOf(PacketsOf(es)), m, m * k)
  {
    var n, t1, t2 := m * k, m * 1_000 + 200, m * 1_000 + 500;
    LateStampBuckets(m, k);
    var a := FineEnds(m, t1, t2, DueMs(0, n));
    var b := CoarseEnds(m, n, t1, t2, DueMs(0, n));
    LateStampPackets(m, t1, t2, DueMs(0, n));
    LateStampTrades(m);
    LateStampDisagrees(m, k);
    OneSession(m, k, es, a, b);
  }

  /** A session for every two sizes: a trade of the first fine bucket that arrives after one of the second
      closes the coarse bar but not the last fine one, and the resampled bar differs. */
  lemma {:induction false} OrderMatters(m: int, k: int)
    requires m > 0 && k >= 2
    ensures m * k > 0 && Sessions(0, m, k, LateStamp(m, k), 0, LateStamp(m, k))
    ensures !BarsMatch(0, m, k, LateStamp(m, k), 0, LateStamp(m, k))
  {
    LateStampSession(m, k, LateStamp(m, k));
    DisagreesDiffers(m, k, LateStamp(m, k));
  }

  lemma {:induction false} LateStampDisagrees(m: int, k: int)
    requires m > 0 && k >= 2
    ensures m * k > 0 && !AgreeingCloses([Trade(0, 1.0, 0), Trade(m, 2.0, 1), Trade(m - 1, 3.0, 1)], m, m * k)
  {
    LateStampBuckets(m, k);
    var x, y, z := Trade(0, 1.0, 0), Trade(m, 2.0, 1), Trade(m - 1, 3.0, 1);
    var ts := [x] + [y] + [z];
    OnlyMore([], x, m, m);
    OnlyMore([x], y, m, m);
    OnlyMore([x] + [y], z, m, m);
    OnlyMore([x] + [y], z, 0, m * k);
    assert LastTraded(ts, m, m, m * k);
    assert ClosePrice(ts, m, m) == 2.0 && ClosePrice(ts, 0, m * k) == 3.0;
    assert ts == [x, y, z];
  }

  /** So does every session with these trades. */
  lemma {:induction false} DisagreesDiffers(m: int, k: int, es: seq<Event>)
    requires Sessions(0, m, k, es, 0, es) && !AgreeingCloses(TradesOf(PacketsOf(es)), m, m * k)
    ensures !BarsMatch(0, m, k, es, 0, es)
  {
    LiveMatchesHistoryExactly(0, m, k, es, 0, es);
  }
}
