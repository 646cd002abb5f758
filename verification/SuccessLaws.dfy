/** When a snapshot is turned into events: exactly the conditions under which reconciliation succeeds. */
module SuccessLaws {
  import opened Common
  import opened BrokerEvents
  import opened BrokerLaws
  import opened FillLaws

  // ----------------------------------------------------------------- new fills apply

  lemma {:induction false} LaterFillsFail(n: Native, fs: seq<Fill>)
    requires |fs| > 0 && n.status !in {Accepted, PartiallyFilled, Canceled}
    ensures AppliedAll(n, FillEvents(fs)).None?
  {
    assert Front(FillEvents(fs)) == FillEvents(Front(fs));
    if |fs| > 1 {
      LaterFillsFail(n, Front(fs));
    } else {
      assert FillEvents(Front(fs)) == [];
    }
  }

  /** Distinct new fills that fit the quantity all apply to an order that can fill. */
  lemma {:induction false} FillsApply(n: Native, fs: seq<Fill>, venue: string)
    requires Sane(n) && RealFills(fs, Some(venue)) && (n.venueId.Some? ==> n.venueId == Some(venue))
    requires DistinctIds(n.fills + fs) && Total(n.fills) + Total(fs) <= n.quantity
    requires n.status in {Accepted, PartiallyFilled, Canceled}
    ensures AppliedAll(n, FillEvents(fs)).Some?
  {
    if |fs| > 0 {
      var front, f := Front(fs), Last(fs);
      RealFront(fs, Some(venue));
      assert front + [f] == fs && (n.fills + front) + [f] == n.fills + fs;
      assert Front(FillEvents(fs)) == FillEvents(front);
      FrontDistinct(n.fills + fs);
      assert Front(n.fills + fs) == n.fills + front;
      FillsApply(n, front, venue);
      AppliedFills(n, front, venue);
      OneMoreApplies(n, AppliedAll(n, FillEvents(front)).value, front, f, venue);
    }
  }

  lemma {:induction false} OneMoreApplies(n: Native, m: Native, front: seq<Fill>, f: Fill, venue: string)
    requires WithFills(n, m, front, venue) && n.status in {Accepted, PartiallyFilled, Canceled}
    requires Total(n.fills) + Total(front) + f.quantity <= n.quantity && f.quantity > 0
    requires forall x :: x in n.fills + front ==> x.id != f.id
    ensures Applied(m, OrderFilled(f)).Some?
  {
    TotalSplit(n.fills, front);
    forall i | 0 <= i < |m.fills|
      ensures m.fills[i].id != f.id
    {
      assert m.fills[i] in n.fills + front;
    }
  }

  lemma {:induction false} NewFillsFit(ms: seq<Fill>, fills: seq<Fill>)
    requires DistinctIds(ms) && DistinctIds(fills) && Known(ms, fills) == Some(Total(fills))
    ensures DistinctIds(fills + Fresh(ms, fills)) && Total(fills) + Total(Fresh(ms, fills)) == Total(ms)
  {
    KnownTotals(ms, fills);
    FreshMembers(ms, fills);
    var news := Fresh(ms, fills);
    forall i, j | 0 <= i < j < |fills + news|
      ensures (fills + news)[i].id != (fills + news)[j].id
    {
      if i < |fills| <= j {
        assert news[j - |fills|] in news;
        FindSome(fills, news[j - |fills|].id);
      }
    }
  }

  /** An order that can fill is part filled or filled by new fills. */
  lemma {:induction false} FillsFill(n: Native, fs: seq<Fill>, venue: string)
    requires Sane(n) && RealFills(fs, Some(venue)) && (n.venueId.Some? ==> n.venueId == Some(venue))
    requires DistinctIds(n.fills + fs) && Total(n.fills) + Total(fs) <= n.quantity && |fs| > 0
    requires n.status in {Accepted, PartiallyFilled, Canceled}
    ensures var r := AppliedAll(n, FillEvents(fs));
            && r.Some?
            && r.value.status == if Total(n.fills) + Total(fs) == n.quantity then Filled else PartiallyFilled
  {
    FillsApply(n, fs, venue);
    AppliedFills(n, fs, venue);
    TotalSplit(n.fills, fs);
  }

  lemma {:induction false} NewFillsCount(cur: Native, o: Owner, ms: seq<Fill>)
    requires Sane(cur) && DistinctIds(ms) && RealFills(ms, Some(o.brokerId))
    requires Known(ms, cur.fills) == Some(Total(cur.fills))
    ensures var news := Fresh(ms, cur.fills);
            && RealFills(news, Some(o.brokerId)) && DistinctIds(cur.fills + news)
            && Total(cur.fills) + Total(news) == Total(ms) && (|news| == 0 <==> Total(news) == 0)
  {
    NewFillsFit(ms, cur.fills);
    FreshReal(ms, cur.fills, o.brokerId);
    NoFills(Fresh(ms, cur.fills), Some(o.brokerId));
  }

  /** What the snapshot's new fills make of an order that starts from `start`. */
  lemma {:induction false} FillsLeave(cur: Native, start: Native, o: Owner, ms: seq<Fill>)
    requires Sane(cur) && Sane(start) && start == cur.(status := start.status, venueId := start.venueId)
    requires start.venueId.Some? ==> start.venueId.value == o.brokerId
    requires DistinctIds(ms) && RealFills(ms, Some(o.brokerId)) && Known(ms, cur.fills) == Some(Total(cur.fills))
    requires Total(ms) <= cur.quantity
    ensures Total(cur.fills) <= Total(ms)
    ensures var r := AppliedAll(start, FillEvents(Fresh(ms, cur.fills)));
            if Total(ms) == Total(cur.fills) then r == Some(start)
            else if start.status in {Accepted, PartiallyFilled, Canceled} then
              r.Some? && r.value.status == (if Total(ms) == cur.quantity then Filled else PartiallyFilled)
            else r.None?
  {
    NewFillsCount(cur, o, ms);
    var news := Fresh(ms, cur.fills);
    if |news| == 0 {
      assert FillEvents(news) == [];
    } else if start.status in {Accepted, PartiallyFilled, Canceled} {
      FillsFill(start, news, o.brokerId);
    } else {
      LaterFillsFail(start, news);
    }
  }

  // ------------------------------------------------------------ what a status needs

  /** The broker's status follows from the order's: what is filled fits it, and the order has not ended in
      another way. A cancelled order is open again only when a new fill has come. */
  predicate Follows(cur: Native, b: BrokerOrder) {
    match b.status
    case Open => b.filled < b.quantity && cur.status != Rejected
        && (cur.status == Canceled ==> b.filled > Total(cur.fills))
    case TriggerPending => b.filled < b.quantity && cur.status != Rejected
        && (cur.status == Canceled ==> b.filled > Total(cur.fills))
    case Complete => b.filled == b.quantity && cur.status != Rejected
    case Cancelled => b.filled < b.quantity && cur.status != Rejected
    case BrokerRejected => b.filled == 0 && cur.status in {Submitted, Accepted, Rejected}
    case OtherStatus => false
    case _ => b.filled == 0 && cur.status == Submitted
  }

  /** An order that the broker works for the first time. */
  predicate NewlyAccepted(cur: Native, b: BrokerOrder) {
    cur.status == Submitted && b.status in {Open, TriggerPending, Complete, Cancelled}
  }

  lemma {:induction false} EndingApplies(n: Native, b: BrokerOrder)
    requires b.updatedAt.Some?
    ensures AppliedAll(n, Ending(b, n.status)).Some?
            <==> && (b.status == Cancelled ==> n.status in {Submitted, Accepted, PartiallyFilled, Canceled})
                 && (b.status == BrokerRejected ==> n.status in {Submitted, Accepted, Rejected})
  {
    var es := Ending(b, n.status);
    if |es| > 0 {
      assert Front(es) == [] && AppliedAll(n, []) == Some(n);
    }
  }

  /** What the snapshot's trades leave of an order that starts from `start`. */
  lemma {:induction false} StartEnds(cur: Native, start: Native, o: Owner, b: BrokerOrder, ms: seq<Fill>)
    requires Sane(cur) && Sane(start) && start == cur.(status := start.status, venueId := start.venueId)
    requires if NewlyAccepted(cur, b) then start.status == Accepted else start.status == cur.status
    requires start.venueId.Some? ==> start.venueId.value == o.brokerId
    requires DistinctIds(ms) && RealFills(ms, Some(o.brokerId)) && Known(ms, cur.fills) == Some(Total(cur.fills))
    requires b.updatedAt.Some? && Total(ms) == b.filled <= b.quantity == cur.quantity
    requires !Pending(b.status) && b.status != OtherStatus && StatusFits(b, b.filled)
    ensures var r := AppliedAll(start, FillEvents(Fresh(ms, cur.fills)));
            && r.Some? && AppliedAll(r.value, Ending(b, r.value.status)).Some? && EndsWell(b, r.value.status)
            <==> Follows(cur, b)
  {
    FillsLeave(cur, start, o, ms);
    var r := AppliedAll(start, FillEvents(Fresh(ms, cur.fills)));
    if r.Some? {
      EndingApplies(r.value, b);
    }
  }

  lemma {:induction false} ProgressApplies(cur: Native, o: Owner, b: BrokerOrder, ms: seq<Fill>)
    requires Sane(cur) && b.updatedAt.Some? && NewlyAccepted(cur, b) && AcceptanceOk(b, ms)
    ensures Progress(cur, o, b, ms).Some?
    ensures var start := cur.(status := Accepted, venueId := Some(o.brokerId));
            && Sane(start)
            && AppliedAll(cur, Progress(cur, o, b, ms).value) == AppliedAll(start, FillEvents(Fresh(ms, cur.fills)))
  {
    var e := OrderAccepted(o.brokerId, b.acceptedAt.value.value);
    NoFills(cur.fills, cur.venueId);
    AppliedSplit(cur, [e], FillEvents(Fresh(ms, cur.fills)));
    assert Front([e]) == [] && AppliedAll(cur, []) == Some(cur);
    AppliedSane(cur, e);
  }

  /** Events are derived exactly when the status follows and a first acceptance is in time. */
  lemma {:induction false} DerivedExactly(cur: Native, o: Owner, b: BrokerOrder, ms: seq<Fill>)
    requires Sane(cur) && b.updatedAt.Some? && (cur.venueId.Some? ==> cur.venueId.value == o.brokerId)
    requires DistinctIds(ms) && RealFills(ms, Some(o.brokerId)) && Known(ms, cur.fills) == Some(Total(cur.fills))
    requires Total(ms) == b.filled <= b.quantity == cur.quantity
    ensures Derived(cur, o, b, ms).Ok? <==> Follows(cur, b) && (NewlyAccepted(cur, b) ==> AcceptanceOk(b, ms))
  {
    if !Pending(b.status) && b.status != OtherStatus && StatusFits(b, b.filled) {
      if !NewlyAccepted(cur, b) {
        StartEnds(cur, cur, o, b, ms);
      } else if AcceptanceOk(b, ms) {
        ProgressApplies(cur, o, b, ms);
        StartEnds(cur, cur.(status := Accepted, venueId := Some(o.brokerId)), o, b, ms);
      }
    }
  }

  // --------------------------------------------------------------------- the whole

  /** The exchange accepted the order before its last update and before every trade of it. */
  ghost predicate AcceptedInTime(trades: seq<BrokerTrade>, b: BrokerOrder) {
    && b.acceptedAt.Some? && b.acceptedAt.value.Some? && b.updatedAt.Some?
    && b.acceptedAt.value.value <= b.updatedAt.value
    && forall i :: 0 <= i < |trades| && trades[i].orderId == b.orderId && trades[i].at.Some? ==>
                     b.acceptedAt.value.value <= trades[i].at.value
  }

  lemma FirstIsEarliest(ms: seq<Fill>, f: Fill)
    requires Rising(ms) && f in ms
    ensures |ms| > 0 && ms[0].at <= f.at
  {
    var i :| 0 <= i < |ms| && ms[i] == f;
    if i > 0 {
      assert FillLess(ms[0], ms[i]);
    }
  }

  lemma {:induction false} AcceptanceIs(trades: seq<BrokerTrade>, cur: Native, o: Owner, b: BrokerOrder, now: int)
    requires Gathered(trades, cur, o, b, now).Some? && b.orderId == o.brokerId && b.updatedAt.Some?
    ensures AcceptanceOk(b, Reported(trades, cur, o, b, now)) <==> AcceptedInTime(trades, b)
  {
    var g, ms := Gathered(trades, cur, o, b, now).value, Reported(trades, cur, o, b, now);
    GatheredSane(trades, cur, o, b, now);
    ReportedSane(trades, cur, o, b, now);
    ReportedCarry(trades, cur, o, b, now);
    SortedRising(g);
    if AcceptanceOk(b, ms) {
      forall i | 0 <= i < |trades| && trades[i].orderId == b.orderId && trades[i].at.Some?
        ensures b.acceptedAt.value.value <= trades[i].at.value
      {
        GatheredAll(trades, cur, o, b, now, i);
        var f :| f in g && Carries(f, trades[i], b);
        assert f in ms;
        FirstIsEarliest(ms, f);
      }
    }
    if AcceptedInTime(trades, b) && |ms| > 0 {
      assert ms[0] in ms && Carried(ms[0], trades, b);
    }
  }

  /** Reconciliation succeeds exactly for a snapshot of this order, worked as sent and not from the future, whose
      trades fit, are in step and hold every processed fill unchanged, whose status follows from the order's, and
      whose first acceptance is in time. */
  lemma {:induction false} SucceedsExactly(cur: Native, o: Owner, b: BrokerOrder, trades: seq<BrokerTrade>, now: int)
    requires Sane(cur)
    ensures Reconciled(cur, o, b, trades, now).Ok?
            <==> && IsTheOrder(cur, o, b) && WorksAsSent(cur, b) && b.updatedAt.Some? && b.updatedAt.value <= now
                 && TradesFit(trades, cur, o, b, now) && StillThere(cur.fills, trades, b) && !OutOfStep(trades, b)
                 && Follows(cur, b) && (NewlyAccepted(cur, b) ==> AcceptedInTime(trades, b))
  {
    HeaderIs(cur, o, b, now);
    GatheredExactly(trades, cur, o, b, now);
    if HeaderOk(cur, o, b, now) && Gathered(trades, cur, o, b, now).Some? {
      var ms := Reported(trades, cur, o, b, now);
      ReportedSane(trades, cur, o, b, now);
      KnownExactly(ms, cur.fills, cur.venueId);
      UnchangedIs(trades, cur, o, b, now);
      LagsIs(trades, cur, o, b, now);
      AcceptanceIs(trades, cur, o, b, now);
      if Known(ms, cur.fills) == Some(Total(cur.fills)) && !Lags(ms, b) {
        DerivedExactly(cur, o, b, ms);
      }
    }
  }
}
