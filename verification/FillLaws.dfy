/** What the events of a reconciliation carry, read off the snapshot field by field, and when a snapshot is
    refused. */
module FillLaws {
  import opened Common
  import opened BrokerEvents
  import opened BrokerLaws

  // ------------------------------------------------------------ what an event carries

  /** The fill is the trade: its identity, quantity, price and time, under the broker's order id. */
  predicate Carries(f: Fill, t: BrokerTrade, b: BrokerOrder) {
    && t.orderId == b.orderId && f.venueId == b.orderId && f.id == t.tradeId
    && f.quantity == t.quantity && f.price as real == t.price && t.at == Some(f.at)
  }

  lemma ReportCarries(t: BrokerTrade, f: Fill, cur: Native, o: Owner, b: BrokerOrder, now: int)
    requires Reports(t, f, cur, o, b, now) && b.orderId == o.brokerId
    ensures Carries(f, t, b)
  {
  }

  ghost predicate Carried(f: Fill, trades: seq<BrokerTrade>, b: BrokerOrder) {
    exists i :: 0 <= i < |trades| && Carries(f, trades[i], b)
  }

  lemma {:induction false} ReportedCarry(trades: seq<BrokerTrade>, cur: Native, o: Owner, b: BrokerOrder, now: int)
    requires Gathered(trades, cur, o, b, now).Some? && b.orderId == o.brokerId
    ensures forall f :: f in Reported(trades, cur, o, b, now) ==> Carried(f, trades, b)
  {
    GatheredSane(trades, cur, o, b, now);
    ReportedSane(trades, cur, o, b, now);
    var g := Gathered(trades, cur, o, b, now).value;
    forall f | f in Reported(trades, cur, o, b, now)
      ensures Carried(f, trades, b)
    {
      assert f in g;
      var i :| 0 <= i < |trades| && Reports(trades[i], f, cur, o, b, now);
      ReportCarries(trades[i], f, cur, o, b, now);
    }
  }

  lemma {:induction false} FillEventsAre(fs: seq<Fill>)
    ensures |FillEvents(fs)| == |fs| && forall i :: 0 <= i < |fs| ==> FillEvents(fs)[i] == OrderFilled(fs[i])
  {
    if |fs| > 0 {
      FillEventsAre(Front(fs));
    }
  }

  /** An event of a reconciliation: the acceptance comes first, with the exchange's acceptance time; a fill is
      a new one of the snapshot; the end comes last, with the time of the last update. */
  ghost predicate Founded(e: Event, i: nat, n: nat, cur: Native, b: BrokerOrder, ms: seq<Fill>) {
    match e
    case OrderAccepted(venueId, at) => i == 0 && venueId == b.orderId && b.acceptedAt == Some(Some(at))
        && cur.status == Submitted
    case OrderFilled(f) => f in ms && forall j :: 0 <= j < |cur.fills| ==> cur.fills[j].id != f.id
    case OrderCanceled(at) => i == n - 1 && b.status == Cancelled && b.updatedAt == Some(at)
    case OrderRejected(at) => i == n - 1 && b.status == BrokerRejected && b.updatedAt == Some(at)
  }

  lemma {:induction false} FreshIsNew(ms: seq<Fill>, fills: seq<Fill>, f: Fill)
    requires DistinctIds(ms) && f in Fresh(ms, fills)
    ensures f in ms && forall j :: 0 <= j < |fills| ==> fills[j].id != f.id
  {
    FreshMembers(ms, fills);
    FindSome(fills, f.id);
  }

  lemma {:induction false} DerivedFounded(cur: Native, o: Owner, b: BrokerOrder, ms: seq<Fill>, i: nat)
    requires b.updatedAt.Some? && b.orderId == o.brokerId && DistinctIds(ms)
    requires Derived(cur, o, b, ms).Ok? && i < |Derived(cur, o, b, ms).value|
    ensures var es := Derived(cur, o, b, ms).value; Founded(es[i], i, |es|, cur, b, ms)
  {
    var es := Derived(cur, o, b, ms).value;
    var news := Fresh(ms, cur.fills);
    var first := Progress(cur, o, b, ms).value;
    var k := |first| - |FillEvents(news)|;
    FillEventsAre(news);
    if k <= i < |first| {
      assert es[i] == OrderFilled(news[i - k]);
      FreshIsNew(ms, cur.fills, news[i - k]);
    } else if i < k {
      assert es[i] == first[i];
    } else {
      assert es[i] == Ending(b, AppliedAll(cur, first).value.status)[i - |first|];
    }
  }

  /** The events of every successful reconciliation. An acceptance comes first and carries the exchange's
      acceptance time. A fill is a trade of the snapshot that the order does not have yet, with its identity,
      quantity, price and time. A cancel or a reject comes last and carries the time of the last update. */
  lemma {:induction false} EventsCarryTheSnapshot(
      cur: Native, o: Owner, b: BrokerOrder, trades: seq<BrokerTrade>, now: int, i: nat)
    requires Reconciled(cur, o, b, trades, now).Ok? && i < |Reconciled(cur, o, b, trades, now).value|
    ensures var es := Reconciled(cur, o, b, trades, now).value;
            match es[i]
            case OrderAccepted(venueId, at) =>
              i == 0 && cur.status == Submitted && venueId == b.orderId && b.acceptedAt == Some(Some(at))
            case OrderFilled(f) => Carried(f, trades, b) && forall j :: 0 <= j < |cur.fills| ==> cur.fills[j].id != f.id
            case OrderCanceled(at) => i == |es| - 1 && b.status == Cancelled && b.updatedAt == Some(at)
            case OrderRejected(at) => i == |es| - 1 && b.status == BrokerRejected && b.updatedAt == Some(at)
  {
    var ms := Reported(trades, cur, o, b, now);
    ReportedSane(trades, cur, o, b, now);
    ReportedCarry(trades, cur, o, b, now);
    DerivedFounded(cur, o, b, ms, i);
  }

  // ------------------------------------------------------- every trade, exactly once

  function Amount(quantity: nat, price: real): real {
    quantity as real * price
  }

  function Worth(f: Fill): real {
    Amount(f.quantity, f.price as real)
  }

  /** Quantity times price over the fills of an order. */
  function Turnover(fs: seq<Fill>): real {
    if |fs| == 0 then 0.0 else Turnover(Front(fs)) + Worth(Last(fs))
  }

  /** The same over the trades of one order. */
  function TradedFor(trades: seq<BrokerTrade>, id: string): real {
    if |trades| == 0 then 0.0
    else TradedFor(Front(trades), id)
         + (if Last(trades).orderId == id then Amount(Last(trades).quantity, Last(trades).price) else 0.0)
  }

  lemma {:induction false} TurnoverMore(fs: seq<Fill>, f: Fill)
    ensures Turnover(fs + [f]) == Turnover(fs) + Worth(f)
  {
    assert Front(fs + [f]) == fs;
  }

  lemma {:induction false} TurnoverSplit(a: seq<Fill>, b: seq<Fill>)
    ensures Turnover(a + b) == Turnover(a) + Turnover(b)
  {
    if |b| == 0 {
      assert a + b == a;
    } else {
      var f, x := Front(b), Last(b);
      assert b == f + [x];
      TurnoverSplit(a, f);
      TurnoverMore(a + f, x);
      TurnoverMore(f, x);
      assert a + b == (a + f) + [x];
    }
  }

  lemma {:induction false} TurnoverMiddle(a: seq<Fill>, x: Fill, b: seq<Fill>)
    ensures Turnover((a + [x]) + b) == Turnover(a + b) + Worth(x)
  {
    TurnoverMore(a, x);
    TurnoverSplit(a + [x], b);
    TurnoverSplit(a, b);
  }

  lemma {:induction false} TurnoverWithout(fs: seq<Fill>, i: nat)
    requires i < |fs|
    ensures Turnover(Without(fs, i)) + Worth(fs[i]) == Turnover(fs)
  {
    TurnoverMiddle(fs[..i], fs[i], fs[i + 1..]);
    assert (fs[..i] + [fs[i]]) + fs[i + 1..] == fs;
  }

  lemma {:induction false} TurnoverOfMembers(a: seq<Fill>, b: seq<Fill>)
    requires multiset(a) == multiset(b)
    ensures Turnover(a) == Turnover(b)
  {
    if |a| > 0 {
      var x := Last(a);
      assert x in a && x in multiset(b);
      var i :| 0 <= i < |b| && b[i] == x;
      FrontMembers(a, b, i);
      TurnoverOfMembers(Front(a), Without(b, i));
      TurnoverWithout(b, i);
    } else {
      assert |multiset(b)| == |b|;
    }
  }

  lemma {:induction false} FrontMembers(a: seq<Fill>, b: seq<Fill>, i: nat)
    requires |a| > 0 && multiset(a) == multiset(b) && i < |b| && b[i] == Last(a)
    ensures multiset(Front(a)) == multiset(Without(b, i))
  {
    WithoutMembers(a, |a| - 1);
    WithoutMembers(b, i);
    assert Without(a, |a| - 1) == Front(a);
  }

  /** Distinct fills with the same members are the same fills in another order. */
  lemma DistinctIsPermuted(a: seq<Fill>, b: seq<Fill>)
    requires DistinctIds(a) && DistinctIds(b) && SameFills(a, b)
    ensures multiset(a) == multiset(b)
  {
    forall f
      ensures multiset(a)[f] == multiset(b)[f]
    {
      if f in a {
        assert f in b;
        var i :| 0 <= i < |a| && a[i] == f;
        var j :| 0 <= j < |b| && b[j] == f;
        OnceInMultiset(a, i);
        OnceInMultiset(b, j);
      } else {
        assert f !in b;
      }
    }
  }

  lemma {:induction false} GatheredTurnover(trades: seq<BrokerTrade>, cur: Native, o: Owner, b: BrokerOrder, now: int)
    requires Gathered(trades, cur, o, b, now).Some?
    ensures Turnover(Gathered(trades, cur, o, b, now).value) == TradedFor(trades, o.brokerId)
  {
    if |trades| > 0 {
      GatheredTurnover(Front(trades), cur, o, b, now);
      var t := Last(trades);
      if t.orderId == o.brokerId {
        TurnoverMore(Gathered(Front(trades), cur, o, b, now).value, FillOf(t, o));
      }
    }
  }

  lemma {:induction false} GatheredAll(
      trades: seq<BrokerTrade>, cur: Native, o: Owner, b: BrokerOrder, now: int, i: nat)
    requires Gathered(trades, cur, o, b, now).Some? && i < |trades| && trades[i].orderId == o.brokerId
             && b.orderId == o.brokerId
    ensures exists f :: f in Gathered(trades, cur, o, b, now).value && Carries(f, trades[i], b)
  {
    var g := Gathered(Front(trades), cur, o, b, now).value;
    if i < |trades| - 1 {
      GatheredAll(Front(trades), cur, o, b, now, i);
      var f :| f in g && Carries(f, Front(trades)[i], b);
      assert f in Gathered(trades, cur, o, b, now).value;
    } else {
      var f := FillOf(trades[i], o);
      assert Gathered(trades, cur, o, b, now).value == g + [f];
      assert f in g + [f] && Carries(f, trades[i], b);
    }
  }

  /** After every successful reconciliation the order holds the snapshot's trades and nothing else: each fill
      is one of its own trades, each of its own trades is a fill, no identity occurs twice, and quantity times
      price adds up to the same. */
  lemma {:induction false} OrderHoldsTheTrades(
      cur: Native, o: Owner, b: BrokerOrder, trades: seq<BrokerTrade>, now: int)
    requires Sane(cur) && Reconciled(cur, o, b, trades, now).Ok?
    ensures Outcome(cur, o, b, trades, now).Some?
    ensures var n := Outcome(cur, o, b, trades, now).value;
            && DistinctIds(n.fills)
            && (forall f :: f in n.fills ==> Carried(f, trades, b))
            && (forall i :: 0 <= i < |trades| && trades[i].orderId == b.orderId ==>
                  exists f :: f in n.fills && Carries(f, trades[i], b))
            && Turnover(n.fills) == TradedFor(trades, b.orderId)
  {
    ReconciledOrderShowsSnapshot(cur, o, b, trades, now);
    ReportedSane(trades, cur, o, b, now);
    ReportedCarry(trades, cur, o, b, now);
    var g, ms := Gathered(trades, cur, o, b, now).value, Reported(trades, cur, o, b, now);
    HoldsReported(Outcome(cur, o, b, trades, now).value, g, ms, o, b);
    forall i | 0 <= i < |trades| && trades[i].orderId == b.orderId
      ensures exists f :: f in Outcome(cur, o, b, trades, now).value.fills && Carries(f, trades[i], b)
    {
      GatheredAll(trades, cur, o, b, now, i);
      var f :| f in g && Carries(f, trades[i], b);
      assert f in ms;
    }
    GatheredTurnover(trades, cur, o, b, now);
  }

  lemma {:induction false} HoldsReported(n: Native, g: seq<Fill>, ms: seq<Fill>, o: Owner, b: BrokerOrder)
    requires Sane(n) && Shows(n, o, b, ms) && ms == Sorted(g) && DistinctIds(ms)
    ensures Turnover(n.fills) == Turnover(g) && DistinctIds(n.fills) && forall f :: f in n.fills <==> f in ms
  {
    SortKeeps(g);
    TurnoverOfMembers(g, ms);
    DistinctIsPermuted(n.fills, ms);
    TurnoverOfMembers(n.fills, ms);
  }

  // ------------------------------------------------------------- what is refused

  /** The snapshot is of this order: identity, ownership, contract, product, side and quantity. */
  predicate IsTheOrder(cur: Native, o: Owner, b: BrokerOrder) {
    && 1 <= |b.orderId| <= 32 && (forall i :: 0 <= i < |b.orderId| ==> '0' <= b.orderId[i] <= '9')
    && b.orderId == o.brokerId && b.tag == Some(o.tag) && (cur.venueId.None? || cur.venueId == Some(b.orderId))
    && b.exchange == "MCX" && b.symbol == cur.symbol && b.token == o.token && b.product == o.product
    && b.side == Some(cur.side) && b.quantity == cur.quantity && 0 < b.quantity < 0x1_0000_0000
       && b.filled <= b.quantity
  }

  predicate WholePrice(x: real, p: Option<int>) {
    x > 0.0 && p.Some? && p.value as real == x
  }

  predicate IsWhole(x: real) {
    x > 0.0 && x.Floor as real == x
  }

  /** The broker works it as it was sent: a day order of the same kind, or one of the conversions the broker
      makes: a market order into a protected limit, a stop into a limit behind it by at most 3%. */
  predicate WorksAsSent(cur: Native, b: BrokerOrder) {
    && b.regular && b.day && b.orderType != OtherType
    && match cur.kind
       case Limit => b.orderType == LimitType && WholePrice(b.price, cur.price)
       case Market =>
         && b.protection.Some?
         && (|| b.protection.value == -1.0 || 0.0 < b.protection.value <= 100.0
             || (b.protection.value == 0.0 && b.orderType == LimitType && IsWhole(b.price)))
       case StopMarket =>
         && b.orderType != LimitType
         && (b.orderType == Sl ==>
               && b.trigger.Some? && b.trigger.value > 0.0 && IsWhole(b.price)
               && (cur.side == Buy ==> 0.0 <= b.price - b.trigger.value <= b.trigger.value * 3.0 / 100.0)
               && (cur.side == Sell ==> 0.0 <= b.trigger.value - b.price <= b.trigger.value * 3.0 / 100.0))
         && ((b.trigger.Some? && WholePrice(b.trigger.value, cur.trigger)) || b.status == Complete)
  }

  lemma HeaderIs(cur: Native, o: Owner, b: BrokerOrder, now: int)
    ensures HeaderOk(cur, o, b, now)
            <==> IsTheOrder(cur, o, b) && WorksAsSent(cur, b) && b.updatedAt.Some? && b.updatedAt.value <= now
  {
    PriceIs(b.price, cur.price);
    if b.trigger.Some? {
      PriceIs(b.trigger.value, cur.trigger);
    }
  }

  lemma PriceIs(x: real, p: Option<int>)
    ensures PriceOf(x).Some? && PriceOf(x) == p <==> WholePrice(x, p)
    ensures PriceOf(x).Some? <==> IsWhole(x)
  {
  }

  /** One of the order's trades is acceptable. */
  predicate IsItsTrade(t: BrokerTrade, cur: Native, o: Owner, b: BrokerOrder, now: int) {
    && 1 <= |t.tradeId| <= 32 && (forall i :: 0 <= i < |t.tradeId| ==> '0' <= t.tradeId[i] <= '9')
    && t.exchange == b.exchange && t.symbol == b.symbol && t.token == o.token && t.product == o.product
    && t.side == Some(cur.side) && t.quantity > 0 && IsWhole(t.price)
    && t.at.Some? && t.at.value <= now
  }

  lemma TradeIs(t: BrokerTrade, cur: Native, o: Owner, b: BrokerOrder, now: int)
    ensures TradeOk(t, cur, o, b, now) <==> IsItsTrade(t, cur, o, b, now)
  {
    PriceIs(t.price, None);
  }

  function Lots(trades: seq<BrokerTrade>, id: string): nat {
    if |trades| == 0 then 0 else Lots(Front(trades), id) + (if Last(trades).orderId == id then Last(trades).quantity
        else 0)
  }

  ghost predicate AllItsTrades(trades: seq<BrokerTrade>, cur: Native, o: Owner, b: BrokerOrder, now: int) {
    forall i :: 0 <= i < |trades| && trades[i].orderId == o.brokerId ==> IsItsTrade(trades[i], cur, o, b, now)
  }

  ghost predicate NoneTwice(trades: seq<BrokerTrade>, id: string) {
    forall i, j :: 0 <= i < j < |trades| && trades[i].orderId == id && trades[j].orderId == id ==>
                     trades[i].tradeId != trades[j].tradeId
  }

  /** The order's trades are acceptable, none is listed twice, and their quantities fit 32 bits. */
  ghost predicate TradesFit(trades: seq<BrokerTrade>, cur: Native, o: Owner, b: BrokerOrder, now: int) {
    AllItsTrades(trades, cur, o, b, now) && NoneTwice(trades, o.brokerId) && Lots(trades, o.brokerId) < 0x1_0000_0000
  }

  ghost predicate Listed(trades: seq<BrokerTrade>, id: string, tradeId: string) {
    exists i :: 0 <= i < |trades| && trades[i].orderId == id && trades[i].tradeId == tradeId
  }

  lemma ListedMore(f: seq<BrokerTrade>, t: BrokerTrade, id: string, tradeId: string)
    ensures Listed(f + [t], id, tradeId) <==> Listed(f, id, tradeId) || (t.orderId == id && t.tradeId == tradeId)
  {
    var all := f + [t];
    if Listed(f, id, tradeId) {
      var i :| 0 <= i < |f| && f[i].orderId == id && f[i].tradeId == tradeId;
      assert all[i] == f[i];
    }
    assert all[|f|] == t;
  }

  lemma {:induction false} FitMore(f: seq<BrokerTrade>, t: BrokerTrade, cur: Native, o: Owner, b: BrokerOrder, now: int)
    ensures TradesFit(f + [t], cur, o, b, now)
            <==> && TradesFit(f, cur, o, b, now)
                 && (t.orderId == o.brokerId ==>
                       && IsItsTrade(t, cur, o, b, now) && !Listed(f, o.brokerId, t.tradeId)
                       && Lots(f, o.brokerId) + t.quantity < 0x1_0000_0000)
  {
    var all := f + [t];
    assert Front(all) == f;
    assert all[|f|] == t && forall i :: 0 <= i < |f| ==> all[i] == f[i];
    assert AllItsTrades(all, cur, o, b, now)
      <==> AllItsTrades(f, cur, o, b, now) && (t.orderId == o.brokerId ==> IsItsTrade(t, cur, o, b, now));
    OnceMore(f, t, o.brokerId);
  }

  lemma OnceMore(f: seq<BrokerTrade>, t: BrokerTrade, id: string)
    ensures NoneTwice(f + [t], id) <==> NoneTwice(f, id) && (t.orderId == id ==> !Listed(f, id, t.tradeId))
  {
    var all := f + [t];
    assert all[|f|] == t && forall i :: 0 <= i < |f| ==> all[i] == f[i];
    if NoneTwice(all, id) {
      forall i, j | 0 <= i < j < |f| && f[i].orderId == id && f[j].orderId == id
        ensures f[i].tradeId != f[j].tradeId
      {
        assert all[i].tradeId != all[j].tradeId;
      }
    }
  }

  /** The trade list is gathered exactly when the order's trades fit. */
  lemma {:induction false} GatheredExactly(trades: seq<BrokerTrade>, cur: Native, o: Owner, b: BrokerOrder, now: int)
    ensures Gathered(trades, cur, o, b, now).Some? <==> TradesFit(trades, cur, o, b, now)
    ensures Gathered(trades, cur, o, b, now).Some? ==>
              var g := Gathered(trades, cur, o, b, now).value;
              Total(g) == Lots(trades, o.brokerId) && forall id :: HasId(g, id) <==> Listed(trades, o.brokerId, id)
  {
    if |trades| > 0 {
      var f, t := Front(trades), Last(trades);
      assert f + [t] == trades;
      GatheredExactly(f, cur, o, b, now);
      FitMore(f, t, cur, o, b, now);
      TradeIs(t, cur, o, b, now);
      if Gathered(trades, cur, o, b, now).Some? {
        GatheredOneMore(f, t, cur, o, b, now);
      }
    }
  }

  lemma {:induction false} GatheredOneMore(
      f: seq<BrokerTrade>, t: BrokerTrade, cur: Native, o: Owner, b: BrokerOrder, now: int)
    requires Gathered(f + [t], cur, o, b, now).Some? && Gathered(f, cur, o, b, now).Some?
    requires var g := Gathered(f, cur, o, b, now).value;
             Total(g) == Lots(f, o.brokerId) && forall id :: HasId(g, id) <==> Listed(f, o.brokerId, id)
    ensures var g := Gathered(f + [t], cur, o, b, now).value;
            Total(g) == Lots(f + [t], o.brokerId) && forall id :: HasId(g, id) <==> Listed(f + [t], o.brokerId, id)
  {
    assert Front(f + [t]) == f;
    var g := Gathered(f, cur, o, b, now).value;
    forall id
      ensures Listed(f + [t], o.brokerId, id)
              <==> Listed(f, o.brokerId, id) || (t.orderId == o.brokerId && t.tradeId == id)
    {
      ListedMore(f, t, o.brokerId, id);
    }
    if t.orderId == o.brokerId {
      HasIdAppend(g, FillOf(t, o));
      TotalAppend(g, FillOf(t, o));
    }
  }

  /** Every processed fill is still in the snapshot, unchanged. */
  ghost predicate StillThere(fills: seq<Fill>, trades: seq<BrokerTrade>, b: BrokerOrder) {
    forall f :: f in fills ==> Carried(f, trades, b)
  }

  /** The snapshot's parts do not fit together yet. */
  ghost predicate OutOfStep(trades: seq<BrokerTrade>, b: BrokerOrder) {
    || Lots(trades, b.orderId) != b.filled
    || exists i :: 0 <= i < |trades| && trades[i].orderId == b.orderId && trades[i].at.Some? && b.updatedAt.Some?
                   && trades[i].at.value > b.updatedAt.value
  }

  lemma {:induction false} CarriedIsReported(
      f: Fill, trades: seq<BrokerTrade>, cur: Native, o: Owner, b: BrokerOrder, now: int)
    requires Gathered(trades, cur, o, b, now).Some? && b.orderId == o.brokerId
    ensures f in Reported(trades, cur, o, b, now) <==> Carried(f, trades, b)
  {
    ReportedCarry(trades, cur, o, b, now);
    ReportedSane(trades, cur, o, b, now);
    if Carried(f, trades, b) {
      var i :| 0 <= i < |trades| && Carries(f, trades[i], b);
      GatheredAll(trades, cur, o, b, now, i);
      var g :| g in Gathered(trades, cur, o, b, now).value && Carries(g, trades[i], b);
      assert f == g;
    }
  }

  lemma {:induction false} UnchangedIs(trades: seq<BrokerTrade>, cur: Native, o: Owner, b: BrokerOrder, now: int)
    requires Gathered(trades, cur, o, b, now).Some? && b.orderId == o.brokerId
    ensures Unchanged(Reported(trades, cur, o, b, now), cur.fills) <==> StillThere(cur.fills, trades, b)
  {
    var ms := Reported(trades, cur, o, b, now);
    ReportedSane(trades, cur, o, b, now);
    forall f
      ensures f in ms <==> Carried(f, trades, b)
    {
      CarriedIsReported(f, trades, cur, o, b, now);
    }
    if forall f :: f in cur.fills ==> f in ms {
      SameIdsSame(ms, cur.fills);
    }
  }

  lemma SameIdsSame(ms: seq<Fill>, fills: seq<Fill>)
    requires DistinctIds(ms) && forall f :: f in fills ==> f in ms
    ensures forall f :: f in ms && HasId(fills, f.id) ==> f in fills
  {
    forall f | f in ms && HasId(fills, f.id)
      ensures f in fills
    {
      var j :| 0 <= j < |fills| && fills[j].id == f.id;
      assert fills[j] in ms;
    }
  }

  lemma {:induction false} LagsIs(trades: seq<BrokerTrade>, cur: Native, o: Owner, b: BrokerOrder, now: int)
    requires Gathered(trades, cur, o, b, now).Some? && b.orderId == o.brokerId && b.updatedAt.Some?
    ensures Lags(Reported(trades, cur, o, b, now), b) <==> OutOfStep(trades, b)
  {
    var g, ms := Gathered(trades, cur, o, b, now).value, Reported(trades, cur, o, b, now);
    GatheredExactly(trades, cur, o, b, now);
    SortKeeps(g);
    ReportedCarry(trades, cur, o, b, now);
    if i :| 0 <= i < |ms| && ms[i].at > b.updatedAt.value {
      assert Carried(ms[i], trades, b);
    }
    if i :|
      0 <= i < |trades| && trades[i].orderId == b.orderId && trades[i].at.Some?
      && trades[i].at.value > b.updatedAt.value
    {
      GatheredAll(trades, cur, o, b, now, i);
      var f :| f in g && Carries(f, trades[i], b);
      ReportedSane(trades, cur, o, b, now);
      assert f in ms;
      var k :| 0 <= k < |ms| && ms[k] == f;
    }
  }

  /** The snapshot may be asked for again exactly when it is of this order, worked as sent, not from the future,
      its trades fit, every processed fill is still in it unchanged, and yet its parts do not fit together: the
      quantities differ or a trade is later than the order's last update. */
  lemma {:induction false} RetriedExactly(cur: Native, o: Owner, b: BrokerOrder, trades: seq<BrokerTrade>, now: int)
    requires Sane(cur)
    ensures Reconciled(cur, o, b, trades, now) == Err(ObservationLag)
            <==> && IsTheOrder(cur, o, b) && WorksAsSent(cur, b) && b.updatedAt.Some? && b.updatedAt.value <= now
                 && TradesFit(trades, cur, o, b, now) && StillThere(cur.fills, trades, b) && OutOfStep(trades, b)
  {
    LagExactly(cur, o, b, trades, now);
    HeaderIs(cur, o, b, now);
    GatheredExactly(trades, cur, o, b, now);
    if HeaderOk(cur, o, b, now) && Gathered(trades, cur, o, b, now).Some? {
      UnchangedIs(trades, cur, o, b, now);
      LagsIs(trades, cur, o, b, now);
    }
  }
}
