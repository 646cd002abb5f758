/** From broker snapshots to order events (`crates/kite-adapter/src/execution/broker_events.rs`).
    An error is either an observation lag, which may be retried, or an integrity failure; its text is
    not modelled. */
module BrokerEvents {
  import opened Common

  const MAX_U32: nat := 0xFFFF_FFFF

  datatype Side = Buy | Sell
  datatype Kind = Limit | Market | StopMarket
  datatype Status = Submitted | Accepted | PartiallyFilled | Filled | Canceled | Rejected

  datatype BrokerStatus =
    | Open | TriggerPending | Complete | Cancelled | BrokerRejected
    | PutOrderReqReceived | ValidationPending | OpenPending | OtherStatus

  datatype BrokerType = LimitType | MarketType | SlM | Sl | OtherType

  /** The broker's view of one order; times and the side are None when their text does not parse. */
  datatype BrokerOrder = BrokerOrder(
    orderId: string, tag: Option<string>, exchange: string, symbol: string, token: nat, product: string,
    side: Option<Side>, regular: bool, day: bool, orderType: BrokerType, protection: Option<real>,
    status: BrokerStatus, quantity: nat, filled: nat, price: real, trigger: Option<real>,
    acceptedAt: Option<Option<int>>, updatedAt: Option<int>)

  datatype BrokerTrade = BrokerTrade(
    tradeId: string, orderId: string, exchange: string, symbol: string, token: nat, product: string,
    side: Option<Side>, quantity: nat, price: real, at: Option<int>)

  datatype Owner = Owner(brokerId: string, tag: string, product: string, token: nat)

  datatype Fill = Fill(at: int, id: string, quantity: nat, price: int, venueId: string)

  /** The native order: its terms, status, venue id and fills. */
  datatype Native = Native(
    symbol: string, side: Side, kind: Kind, quantity: nat, price: Option<int>, trigger: Option<int>,
    status: Status, venueId: Option<string>, fills: seq<Fill>)

  datatype Event =
    | OrderAccepted(venueId: string, at: int)
    | OrderFilled(fill: Fill)
    | OrderCanceled(at: int)
    | OrderRejected(at: int)

  datatype Fault = ObservationLag | Integrity

  // ----------------------------------------------------------- small conversions

  predicate BrokerId(id: string) {
    0 < |id| <= 32 && forall i :: 0 <= i < |id| ==> '0' <= id[i] <= '9'
  }

  /** A price is a positive whole number. */
  function PriceOf(v: real): Option<int> {
    if v > 0.0 && v == v.Floor as real then Some(v.Floor) else None
  }

  /** The stop-limit shape a stop-market order may be converted to: a whole limit on the protective
      side of the trigger, within 3%. */
  predicate SlMConversionOk(b: BrokerOrder, side: Side) {
    && b.trigger.Some? && b.trigger.value > 0.0 && PriceOf(b.price).Some?
    && var band := b.trigger.value * 0.03;
       match side
       case Buy => b.price >= b.trigger.value && b.price - b.trigger.value <= band
       case Sell => b.price <= b.trigger.value && b.trigger.value - b.price <= band
  }

  /** Terms, ownership and instructions of the broker's order match the native one. */
  predicate HeaderOk(cur: Native, o: Owner, b: BrokerOrder, now: int) {
    && BrokerId(o.brokerId)
    && (cur.venueId.Some? ==> cur.venueId.value == o.brokerId)
    && b.orderId == o.brokerId && b.tag == Some(o.tag)
    && b.exchange == "MCX" && b.symbol == cur.symbol && b.token == o.token && b.product == o.product
    && b.regular && b.orderType != OtherType && b.day
    && b.side == Some(cur.side)
    && 0 < b.quantity <= MAX_U32 && b.filled <= b.quantity
    && (cur.kind == StopMarket ==>
          && b.orderType in {SlM, MarketType, Sl}
          && (b.orderType == Sl ==> SlMConversionOk(b, cur.side))
          && ((b.trigger.Some? && PriceOf(b.trigger.value).Some? && PriceOf(b.trigger.value) == cur.trigger)
             || b.status == Complete))
    && (cur.kind == Market ==>
          && b.protection.Some?
          && var p := b.protection.value;
             p == -1.0 || 0.0 < p <= 100.0 || (p == 0.0 && b.orderType == LimitType && PriceOf(b.price).Some?))
    && (cur.kind == Limit ==> b.orderType == LimitType && PriceOf(b.price).Some? && PriceOf(b.price) == cur.price)
    && b.quantity == cur.quantity
    && b.updatedAt.Some? && b.updatedAt.value <= now
  }

  // ------------------------------------------------------------- the trade list

  function Own(trades: seq<BrokerTrade>, id: string): seq<BrokerTrade> {
    if |trades| == 0 then []
    else Own(Front(trades), id) + (if Last(trades).orderId == id then [Last(trades)] else [])
  }

  predicate TradeOk(t: BrokerTrade, cur: Native, o: Owner, b: BrokerOrder, now: int) {
    && BrokerId(t.tradeId)
    && t.exchange == b.exchange && t.symbol == b.symbol && t.token == o.token && t.product == o.product
    && t.side == Some(cur.side)
    && t.quantity > 0
    && t.at.Some? && t.at.value <= now
    && PriceOf(t.price).Some?
  }

  function FillOf(t: BrokerTrade, o: Owner): Fill
    requires t.at.Some? && PriceOf(t.price).Some?
  {
    Fill(t.at.value, t.tradeId, t.quantity, PriceOf(t.price).value, o.brokerId)
  }

  function Total(fs: seq<Fill>): nat {
    if |fs| == 0 then 0 else Total(Front(fs)) + Last(fs).quantity
  }

  predicate HasId(fs: seq<Fill>, id: string) {
    exists i :: 0 <= i < |fs| && fs[i].id == id
  }

  /** One more trade read: other orders' trades are skipped; None if it is not acceptable, its identity
      occurred before, or the quantities overflow. */
  function Read(
      g: Option<seq<Fill>>, t: BrokerTrade, cur: Native, o: Owner, b: BrokerOrder, now: int): Option<seq<Fill>> {
    if t.orderId != o.brokerId || g.None? then g
    else if !TradeOk(t, cur, o, b, now) || HasId(g.value, t.tradeId) || Total(g.value) + t.quantity > MAX_U32 then None
    else Some(g.value + [FillOf(t, o)])
  }

  /** The fills a trade list reports for the order, in list order. */
  function Gathered(trades: seq<BrokerTrade>, cur: Native, o: Owner, b: BrokerOrder, now: int): Option<seq<Fill>> {
    if |trades| == 0 then Some([]) else Read(Gathered(Front(trades), cur, o, b, now), Last(trades), cur, o, b, now)
  }

  /** Text order of identities. */
  predicate TextLess(a: string, b: string)
    decreases |a|
  {
    |b| > 0 && (|a| == 0 || a[0] < b[0] || (a[0] == b[0] && TextLess(a[1..], b[1..])))
  }

  predicate FillLess(x: Fill, y: Fill) {
    x.at < y.at || (x.at == y.at && TextLess(x.id, y.id))
  }

  function Insert(fs: seq<Fill>, x: Fill): seq<Fill> {
    if |fs| == 0 then [x]
    else if FillLess(x, fs[0]) then [x] + fs
    else [fs[0]] + Insert(fs[1..], x)
  }

  /** The fills by time, then identity. */
  function Sorted(fs: seq<Fill>): seq<Fill> {
    if |fs| == 0 then [] else Insert(Sorted(Front(fs)), Last(fs))
  }

  // --------------------------------------------------------------- what is known

  function Find(fs: seq<Fill>, id: string): Option<Fill> {
    if |fs| == 0 then None else if fs[0].id == id then Some(fs[0]) else Find(fs[1..], id)
  }

  /** The snapshot's trades already processed, unchanged; None if one has changed. */
  function Known(ms: seq<Fill>, fills: seq<Fill>): Option<nat> {
    if |ms| == 0 then Some(0)
    else
      var r := Known(Front(ms), fills);
      var m := Last(ms);
      if r.None? || Find(fills, m.id).None? then r
      else if Find(fills, m.id).value != m then None
      else Some(r.value + m.quantity)
  }

  /** The snapshot's trades not yet processed. */
  function Fresh(ms: seq<Fill>, fills: seq<Fill>): seq<Fill> {
    if |ms| == 0 then []
    else Fresh(Front(ms), fills) + (if Find(fills, Last(ms).id).None? then [Last(ms)] else [])
  }

  // ------------------------------------------------------------ the native order

  /** The order's state machine: acceptance once, fills up to the quantity (late ones on a cancelled
      order too), one final cancel or reject. */
  function Applied(n: Native, e: Event): Option<Native> {
    match e
    case OrderAccepted(venueId, _) => if n.status == Submitted
        then Some(n.(status := Accepted, venueId := Some(venueId))) else None
    case OrderFilled(f) =>
      if n.status in {Accepted, PartiallyFilled, Canceled} && !HasId(n.fills, f.id)
          && Total(n.fills) + f.quantity <= n.quantity
      then Some(n.(fills := n.fills + [f], venueId := Some(f.venueId),
                   status := if Total(n.fills) + f.quantity == n.quantity then Filled else PartiallyFilled))
      else None
    case OrderCanceled(_) => if n.status in {Submitted, Accepted, PartiallyFilled} then Some(n.(status := Canceled))
        else None
    case OrderRejected(_) => if n.status in {Submitted, Accepted} then Some(n.(status := Rejected)) else None
  }

  function AppliedAll(n: Native, es: seq<Event>): Option<Native> {
    if |es| == 0 then Some(n)
    else
      var r := AppliedAll(n, Front(es));
      if r.None? then None else Applied(r.value, Last(es))
  }

  function FillEvents(fs: seq<Fill>): seq<Event> {
    if |fs| == 0 then [] else FillEvents(Front(fs)) + [OrderFilled(Last(fs))]
  }

  // -------------------------------------------------------------- reconciliation

  predicate Pending(s: BrokerStatus) {
    s in {PutOrderReqReceived, ValidationPending, OpenPending}
  }

  predicate Lags(ms: seq<Fill>, b: BrokerOrder)
    requires b.updatedAt.Some?
  {
    (exists i :: 0 <= i < |ms| && ms[i].at > b.updatedAt.value) || Total(ms) != b.filled
  }

  /** Quantities that the broker's status allows. */
  predicate StatusFits(b: BrokerOrder, sum: nat) {
    && (b.status == Complete ==> sum == b.quantity)
    && (b.status in {Open, TriggerPending} ==> sum < b.quantity)
    && (b.status == BrokerRejected ==> sum == 0)
  }

  predicate AcceptanceOk(b: BrokerOrder, ms: seq<Fill>)
    requires b.updatedAt.Some?
  {
    && b.acceptedAt.Some? && b.acceptedAt.value.Some?
    && b.acceptedAt.value.value <= b.updatedAt.value
    && (|ms| > 0 ==> b.acceptedAt.value.value <= ms[0].at)
  }

  /** Acceptance, if the order still waits for it, and the new fills. */
  function Progress(cur: Native, o: Owner, b: BrokerOrder, ms: seq<Fill>): Option<seq<Event>>
    requires b.updatedAt.Some?
  {
    var fills := FillEvents(Fresh(ms, cur.fills));
    if b.status == BrokerRejected || cur.status != Submitted then Some(fills)
    else if !AcceptanceOk(b, ms) then None
    else Some([OrderAccepted(o.brokerId, b.acceptedAt.value.value)] + fills)
  }

  /** The final event the broker's status calls for, given the native status so far. */
  function Ending(b: BrokerOrder, status: Status): seq<Event>
    requires b.updatedAt.Some?
  {
    if b.status == Cancelled && status != Canceled then [OrderCanceled(b.updatedAt.value)]
    else if b.status == BrokerRejected && status != Rejected then [OrderRejected(b.updatedAt.value)]
    else []
  }

  predicate EndsWell(b: BrokerOrder, status: Status) {
    && (b.status == Complete ==> status == Filled)
    && (b.status in {Open, TriggerPending} ==> status in {Accepted, PartiallyFilled})
  }

  function Derived(cur: Native, o: Owner, b: BrokerOrder, ms: seq<Fill>): Result<seq<Event>, Fault>
    requires b.updatedAt.Some?
  {
    if Pending(b.status) then
      if Total(ms) == 0 && cur.status == Submitted then Ok([]) else Err(Integrity)
    else if b.status == OtherStatus || !StatusFits(b, Total(ms)) then Err(Integrity)
    else
      var es := Progress(cur, o, b, ms);
      if es.None? || AppliedAll(cur, es.value).None? then Err(Integrity)
      else
        var n := AppliedAll(cur, es.value).value;
        var last := Ending(b, n.status);
        if AppliedAll(n, last).None? || !EndsWell(b, n.status) then Err(Integrity)
        else Ok(es.value + last)
  }

  /** `reconcile`: the events that bring the native order to the snapshot, or why there are none. */
  function Reconciled(
      cur: Native, o: Owner, b: BrokerOrder, trades: seq<BrokerTrade>, now: int): Result<seq<Event>, Fault> {
    if !HeaderOk(cur, o, b, now) then Err(Integrity)
    else
      var g := Gathered(trades, cur, o, b, now);
      if g.None? then Err(Integrity)
      else
        var ms := Sorted(g.value);
        if Known(ms, cur.fills) != Some(Total(cur.fills)) then Err(Integrity)
        else if Lags(ms, b) then Err(ObservationLag)
        else Derived(cur, o, b, ms)
  }

  // ------------------------------------------------------------ step by step

  /** The first loop: the order's own trades, each checked and counted. */
  method Gather(trades: seq<BrokerTrade>, cur: Native, o: Owner, b: BrokerOrder, now: int)
    returns (r: Option<seq<Fill>>, sum: nat)
    ensures r == Gathered(trades, cur, o, b, now) && (r.Some? ==> sum == Total(r.value))
  {
    var seen: set<string> := {};
    var matched: seq<Fill> := [];
    sum := 0;
    for i := 0 to |trades|
      invariant Gathered(trades[..i], cur, o, b, now) == Some(matched)
      invariant sum == Total(matched)
      invariant forall id :: id in seen <==> HasId(matched, id)
    {
      assert Front(trades[..i + 1]) == trades[..i];
      var t := trades[i];
      if t.orderId == o.brokerId {
        if !TradeOk(t, cur, o, b, now) || t.tradeId in seen || sum + t.quantity > MAX_U32 {
          GatherStops(trades, i + 1, cur, o, b, now);
          return None, sum;
        }
        var f := FillOf(t, o);
        HasIdAppend(matched, f);
        assert Front(matched + [f]) == matched;
        seen := seen + {t.tradeId};
        sum := sum + t.quantity;
        matched := matched + [f];
      }
    }
    assert trades[..|trades|] == trades;
    r := Some(matched);
  }

  lemma HasIdAppend(fs: seq<Fill>, f: Fill)
    ensures forall id :: HasId(fs + [f], id) <==> HasId(fs, id) || f.id == id
  {
    forall id
      ensures HasId(fs + [f], id) <==> HasId(fs, id) || f.id == id
    {
      if HasId(fs, id) {
        var i :| 0 <= i < |fs| && fs[i].id == id;
        assert (fs + [f])[i].id == id;
      }
      if f.id == id {
        assert (fs + [f])[|fs|].id == id;
      }
    }
  }

  /** Once a trade is refused the list is refused. */
  lemma {:induction false} GatherStops(
      trades: seq<BrokerTrade>, n: nat, cur: Native, o: Owner, b: BrokerOrder, now: int)
    requires n <= |trades| && Gathered(trades[..n], cur, o, b, now).None?
    ensures Gathered(trades, cur, o, b, now).None?
    decreases |trades| - n
  {
    if n < |trades| {
      assert Front(trades[..n + 1]) == trades[..n];
      GatherStops(trades, n + 1, cur, o, b, now);
    } else {
      assert trades[..n] == trades;
    }
  }

  /** The second loop: processed trades must be unchanged. */
  method CountKnown(ms: seq<Fill>, cur: Native) returns (r: Option<nat>)
    ensures r == Known(ms, cur.fills)
  {
    var known := 0;
    for i := 0 to |ms|
      invariant Known(ms[..i], cur.fills) == Some(known)
    {
      assert Front(ms[..i + 1]) == ms[..i];
      var prior := Find(cur.fills, ms[i].id);
      if prior.Some? {
        if prior.value != ms[i] {
          KnownStops(ms, i + 1, cur.fills);
          return None;
        }
        known := known + ms[i].quantity;
      }
    }
    assert ms[..|ms|] == ms;
    r := Some(known);
  }

  lemma {:induction false} KnownStops(ms: seq<Fill>, n: nat, fills: seq<Fill>)
    requires n <= |ms| && Known(ms[..n], fills).None?
    ensures Known(ms, fills).None?
    decreases |ms| - n
  {
    if n < |ms| {
      assert Front(ms[..n + 1]) == ms[..n];
      KnownStops(ms, n + 1, fills);
    } else {
      assert ms[..n] == ms;
    }
  }

  /** The third loop: one fill event per new trade, each applied to the order. */
  method ApplyFills(start: Native, first: seq<Event>, ms: seq<Fill>, known: seq<Fill>)
    returns (order: Option<Native>, events: seq<Event>)
    requires AppliedAll(start, first).Some?
    ensures events == first + FillEvents(Fresh(ms, known)) || order.None?
    ensures order == AppliedAll(start, first + FillEvents(Fresh(ms, known)))
  {
    var current := AppliedAll(start, first).value;
    events := first;
    assert first + [] == first;
    for i := 0 to |ms|
      invariant events == first + FillEvents(Fresh(ms[..i], known))
      invariant AppliedAll(start, events) == Some(current)
    {
      FreshStep(first, ms, i, known);
      if Find(known, ms[i].id).None? {
        var e := OrderFilled(ms[i]);
        assert Front(events + [e]) == events;
        var next := Applied(current, e);
        if next.None? {
          assert AppliedAll(start, events + [e]).None?;
          ApplyStops(start, first, ms, i + 1, known);
          return None, events;
        }
        current := next.value;
        events := events + [e];
      }
    }
    assert ms[..|ms|] == ms;
    order := Some(current);
  }

  /** One more trade of the snapshot adds its fill event, if it is new. */
  lemma {:induction false} FreshStep(first: seq<Event>, ms: seq<Fill>, i: nat, known: seq<Fill>)
    requires i < |ms|
    ensures first + FillEvents(Fresh(ms[..i + 1], known))
            == (first + FillEvents(Fresh(ms[..i], known))) + (if Find(known, ms[i].id).None? then [OrderFilled(ms[i])]
                else [])
  {
    assert Front(ms[..i + 1]) == ms[..i] && Last(ms[..i + 1]) == ms[i];
    var fs := Fresh(ms[..i], known);
    FillEventsAppend(fs, ms[i]);
    assert fs + [] == fs;
    assert first + (FillEvents(fs) + [OrderFilled(ms[i])]) == (first + FillEvents(fs)) + [OrderFilled(ms[i])];
  }

  lemma {:induction false} FillEventsAppend(fs: seq<Fill>, f: Fill)
    ensures FillEvents(fs + [f]) == FillEvents(fs) + [OrderFilled(f)]
  {
    assert Front(fs + [f]) == fs;
  }

  lemma {:induction false} ApplyStops(start: Native, first: seq<Event>, ms: seq<Fill>, n: nat, known: seq<Fill>)
    requires n <= |ms| && AppliedAll(start, first + FillEvents(Fresh(ms[..n], known))).None?
    ensures AppliedAll(start, first + FillEvents(Fresh(ms, known))).None?
    decreases |ms| - n
  {
    if n < |ms| {
      FreshStep(first, ms, n, known);
      var es := first + FillEvents(Fresh(ms[..n], known));
      assert Front(es + [OrderFilled(ms[n])]) == es;
      assert es + [] == es;
      ApplyStops(start, first, ms, n + 1, known);
    } else {
      assert ms[..n] == ms;
    }
  }

  /** `reconcile`: header, trades, quantities, then the events, refusing at the first failure. */
  method Reconcile(cur: Native, o: Owner, b: BrokerOrder, trades: seq<BrokerTrade>, now: int)
    returns (r: Result<seq<Event>, Fault>)
    ensures r == Reconciled(cur, o, b, trades, now)
  {
    if !HeaderOk(cur, o, b, now) {
      return Err(Integrity);
    }
    var gathered, sum := Gather(trades, cur, o, b, now);
    if gathered.None? {
      return Err(Integrity);
    }
    var ms := Sorted(gathered.value);
    SortKeeps(gathered.value);
    var known := CountKnown(ms, cur);
    if known != Some(Total(cur.fills)) {
      return Err(Integrity);
    }
    if (exists i :: 0 <= i < |ms| && ms[i].at > b.updatedAt.value) || sum != b.filled {
      return Err(ObservationLag);
    }
    r := Conclude(cur, o, b, ms, sum);
  }

  method Conclude(cur: Native, o: Owner, b: BrokerOrder, ms: seq<Fill>, sum: nat) returns (r: Result<seq<Event>, Fault>)
    requires b.updatedAt.Some? && sum == Total(ms)
    ensures r == Derived(cur, o, b, ms)
  {
    if Pending(b.status) {
      return if sum == 0 && cur.status == Submitted then Ok([]) else Err(Integrity);
    }
    if b.status == OtherStatus || !StatusFits(b, sum) {
      return Err(Integrity);
    }
    var first: seq<Event> := [];
    if b.status != BrokerRejected && cur.status == Submitted {
      if !AcceptanceOk(b, ms) {
        return Err(Integrity);
      }
      first := [OrderAccepted(o.brokerId, b.acceptedAt.value.value)];
    }
    assert Front([OrderAccepted(o.brokerId, 0)]) == [];
    assert |first| > 0 ==> Front(first) == [] && AppliedAll(cur, []) == Some(cur);
    assert AppliedAll(cur, first).Some?;
    assert [] + FillEvents(Fresh(ms, cur.fills)) == FillEvents(Fresh(ms, cur.fills));
    assert Progress(cur, o, b, ms) == Some(first + FillEvents(Fresh(ms, cur.fills)));
    var order, events := ApplyFills(cur, first, ms, cur.fills);
    if order.None? {
      return Err(Integrity);
    }
    var last := Ending(b, order.value.status);
    if AppliedAll(order.value, last).None? || !EndsWell(b, order.value.status) {
      return Err(Integrity);
    }
    r := Ok(events + last);
  }

  // ------------------------------------------------------------------- sorting

  lemma {:induction false} InsertKeeps(fs: seq<Fill>, x: Fill)
    ensures multiset(Insert(fs, x)) == multiset(fs) + multiset{x} && Total(Insert(fs, x)) == Total(fs) + x.quantity
  {
    if |fs| == 0 {
      assert Front([x]) == [];
    } else if FillLess(x, fs[0]) {
      TotalSplit([x], fs);
      assert Front([x]) == [];
    } else {
      InsertKeeps(fs[1..], x);
      assert fs == [fs[0]] + fs[1..];
      TotalSplit([fs[0]], fs[1..]);
      TotalSplit([fs[0]], Insert(fs[1..], x));
    }
  }

  lemma {:induction false} TotalSplit(a: seq<Fill>, b: seq<Fill>)
    ensures Total(a + b) == Total(a) + Total(b)
  {
    if |b| == 0 {
      assert a + b == a;
    } else {
      assert Front(a + b) == a + Front(b);
      TotalSplit(a, Front(b));
    }
  }

  lemma {:induction false} SortKeeps(fs: seq<Fill>)
    ensures multiset(Sorted(fs)) == multiset(fs) && Total(Sorted(fs)) == Total(fs)
  {
    if |fs| > 0 {
      SortKeeps(Front(fs));
      InsertKeeps(Sorted(Front(fs)), Last(fs));
      assert fs == Front(fs) + [Last(fs)];
    }
  }
}
