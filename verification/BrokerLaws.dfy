/** What reconciliation guarantees: the order after it is a function of the snapshot alone, fills are
    counted exactly once, and lost or altered fills are never mistaken for lag. */
module BrokerLaws {
  import opened Common
  import opened BrokerEvents

  // ------------------------------------------------------------- sane orders

  ghost predicate DistinctIds(fs: seq<Fill>) {
    forall i, j :: 0 <= i < j < |fs| ==> fs[i].id != fs[j].id
  }

  ghost predicate RealFills(fs: seq<Fill>, venue: Option<string>) {
    forall i :: 0 <= i < |fs| ==> fs[i].quantity > 0 && venue == Some(fs[i].venueId)
  }

  /** Status and filled quantity say the same. */
  ghost predicate StatusSays(s: Status, filled: nat, quantity: nat) {
    match s
    case Submitted => filled == 0
    case Accepted => filled == 0
    case PartiallyFilled => 0 < filled < quantity
    case Filled => filled == quantity
    case Canceled => filled < quantity
    case Rejected => filled == 0
  }

  /** An order the state machine can have produced. */
  ghost predicate Sane(n: Native) {
    && DistinctIds(n.fills) && RealFills(n.fills, n.venueId)
    && Total(n.fills) <= n.quantity && n.quantity > 0
    && StatusSays(n.status, Total(n.fills), n.quantity)
    && (n.status in {Accepted, PartiallyFilled, Filled} ==> n.venueId.Some?)
  }

  lemma {:induction false} TotalAppend(fs: seq<Fill>, f: Fill)
    ensures Total(fs + [f]) == Total(fs) + f.quantity
  {
    assert Front(fs + [f]) == fs;
  }

  lemma FilledSane(n: Native, f: Fill)
    requires Sane(n) && Applied(n, OrderFilled(f)).Some?
    requires f.quantity > 0 && (n.venueId.Some? ==> n.venueId == Some(f.venueId))
    ensures Sane(Applied(n, OrderFilled(f)).value)
  {
    TotalAppend(n.fills, f);
    DistinctMore(n.fills, f);
    RealMore(n.fills, n.venueId, f);
  }

  lemma DistinctMore(fs: seq<Fill>, f: Fill)
    requires DistinctIds(fs) && !HasId(fs, f.id)
    ensures DistinctIds(fs + [f])
  {
  }

  lemma RealMore(fs: seq<Fill>, venue: Option<string>, f: Fill)
    requires RealFills(fs, venue) && f.quantity > 0 && (venue.Some? ==> venue == Some(f.venueId))
    ensures RealFills(fs + [f], Some(f.venueId))
  {
  }

  lemma AcceptedSane(n: Native, e: Event)
    requires Sane(n) && e.OrderAccepted? && Applied(n, e).Some?
    ensures Sane(Applied(n, e).value)
  {
    NoFills(n.fills, n.venueId);
  }

  lemma AppliedSane(n: Native, e: Event)
    requires Sane(n) && Applied(n, e).Some?
    requires e.OrderFilled? ==> e.fill.quantity > 0 && (n.venueId.Some? ==> n.venueId == Some(e.fill.venueId))
    ensures Sane(Applied(n, e).value)
  {
    if e.OrderFilled? {
      FilledSane(n, e.fill);
    } else if e.OrderAccepted? {
      AcceptedSane(n, e);
    }
  }

  lemma {:induction false} NoFills(fs: seq<Fill>, venue: Option<string>)
    requires RealFills(fs, venue)
    ensures |fs| > 0 ==> Total(fs) > 0
  {
    if |fs| > 0 {
      assert Last(fs).quantity > 0;
    }
  }

  /** `m` is `n` with exactly the fills `fs` applied. */
  ghost predicate WithFills(n: Native, m: Native, fs: seq<Fill>, venue: string) {
    var ok :=
      && Sane(m) && m.fills == n.fills + fs && m == n.(fills := m.fills, status := m.status, venueId := m.venueId)
      && (m.venueId.Some? ==> m.venueId == Some(venue)) && (n.venueId.Some? ==> m.venueId.Some?)
      && (|fs| > 0 ==> m.status in {PartiallyFilled, Filled}) && (|fs| == 0 ==> m == n);
    ok
  }

  lemma {:induction false} LastFillApplied(n: Native, fs: seq<Fill>)
    requires |fs| > 0 && AppliedAll(n, FillEvents(fs)).Some?
    ensures AppliedAll(n, FillEvents(Front(fs))).Some?
    ensures AppliedAll(n, FillEvents(fs)) == Applied(AppliedAll(n, FillEvents(Front(fs))).value, OrderFilled(Last(fs)))
  {
    assert Front(FillEvents(fs)) == FillEvents(Front(fs));
  }

  lemma RealFront(fs: seq<Fill>, venue: Option<string>)
    requires RealFills(fs, venue) && |fs| > 0
    ensures RealFills(Front(fs), venue) && Last(fs).quantity > 0 && venue == Some(Last(fs).venueId)
  {
  }

  lemma WithOneMore(n: Native, m: Native, fs: seq<Fill>, f: Fill, venue: string)
    requires WithFills(n, m, fs, venue) && Applied(m, OrderFilled(f)).Some? && f.quantity > 0 && f.venueId == venue
    ensures WithFills(n, Applied(m, OrderFilled(f)).value, fs + [f], venue)
  {
    FilledSane(m, f);
    assert (n.fills + fs) + [f] == n.fills + (fs + [f]);
  }

  /** Applying fill events appends exactly those fills. */
  lemma {:induction false} AppliedFills(n: Native, fs: seq<Fill>, venue: string)
    requires Sane(n) && AppliedAll(n, FillEvents(fs)).Some? && RealFills(fs, Some(venue))
             && (n.venueId.Some? ==> n.venueId == Some(venue))
    ensures WithFills(n, AppliedAll(n, FillEvents(fs)).value, fs, venue)
  {
    if |fs| == 0 {
      WithNoMore(n, fs, venue);
    } else {
      var front, f := Front(fs), Last(fs);
      LastFillApplied(n, fs);
      RealFront(fs, Some(venue));
      AppliedFills(n, front, venue);
      WithOneMore(n, AppliedAll(n, FillEvents(front)).value, front, f, venue);
      assert front + [f] == fs;
    }
  }

  lemma WithNoMore(n: Native, fs: seq<Fill>, venue: string)
    requires Sane(n) && |fs| == 0 && (n.venueId.Some? ==> n.venueId == Some(venue))
    ensures WithFills(n, n, fs, venue)
  {
    assert n.fills + fs == n.fills;
  }

  lemma {:induction false} AppliedSplit(n: Native, a: seq<Event>, b: seq<Event>)
    ensures AppliedAll(n, a + b) == if AppliedAll(n, a).None? then None else AppliedAll(AppliedAll(n, a).value, b)
  {
    if |b| == 0 {
      assert a + b == a;
    } else {
      assert Front(a + b) == a + Front(b);
      AppliedSplit(n, a, Front(b));
    }
  }

  // ------------------------------------------------------ what a snapshot reports

  lemma {:induction false} GatheredSane(trades: seq<BrokerTrade>, cur: Native, o: Owner, b: BrokerOrder, now: int)
    requires Gathered(trades, cur, o, b, now).Some?
    ensures var g := Gathered(trades, cur, o, b, now).value;
            && DistinctIds(g) && RealFills(g, Some(o.brokerId))
            && forall f :: f in g ==> exists i :: 0 <= i < |trades| && Reports(trades[i], f, cur, o, b, now)
  {
    if |trades| > 0 {
      GatheredSane(Front(trades), cur, o, b, now);
      var g := Gathered(Front(trades), cur, o, b, now).value;
      var t := Last(trades);
      var r := Gathered(trades, cur, o, b, now).value;
      assert t == trades[|trades| - 1];
      forall f | f in r
        ensures exists i :: 0 <= i < |trades| && Reports(trades[i], f, cur, o, b, now)
      {
        if f in g {
          var i :| 0 <= i < |Front(trades)| && Reports(Front(trades)[i], f, cur, o, b, now);
          assert trades[i] == Front(trades)[i];
        } else {
          assert Reports(trades[|trades| - 1], f, cur, o, b, now);
        }
      }
      if r != g {
        forall i | 0 <= i < |g|
          ensures g[i].id != t.tradeId
        {
        }
      }
    }
  }

  /** Trade `t` of the snapshot is fill `f` of the order. */
  ghost predicate Reports(t: BrokerTrade, f: Fill, cur: Native, o: Owner, b: BrokerOrder, now: int) {
    t.orderId == o.brokerId && TradeOk(t, cur, o, b, now) && FillOf(t, o) == f
  }

  ghost predicate SameFills(a: seq<Fill>, b: seq<Fill>) {
    forall f :: f in a <==> f in b
  }

  lemma {:induction false} SortedSane(fs: seq<Fill>, venue: Option<string>)
    requires DistinctIds(fs) && RealFills(fs, venue)
    ensures DistinctIds(Sorted(fs)) && RealFills(Sorted(fs), venue) && SameFills(Sorted(fs), fs)
  {
    SortKeeps(fs);
    var s := Sorted(fs);
    assert SameFills(s, fs) by {
      forall f
        ensures f in s <==> f in fs
      {
        assert multiset(s)[f] == multiset(fs)[f];
      }
    }
    forall i, j | 0 <= i < j < |s|
      ensures s[i].id != s[j].id
    {
      if s[i].id == s[j].id {
        assert s[i] in s && s[j] in s;
        var a :| 0 <= a < |fs| && fs[a] == s[i];
        var b :| 0 <= b < |fs| && fs[b] == s[j];
        assert a == b;
        assert s[i] == s[j];
        TwiceInMultiset(s, i, j);
        OnceInMultiset(fs, a);
      }
    }
    forall i | 0 <= i < |s|
      ensures s[i].quantity > 0 && venue == Some(s[i].venueId)
    {
      assert s[i] in fs;
    }
  }

  lemma TwiceInMultiset(s: seq<Fill>, i: nat, j: nat)
    requires i < j < |s| && s[i] == s[j]
    ensures multiset(s)[s[i]] >= 2
  {
    assert s == s[..i] + [s[i]] + s[i + 1..j] + [s[j]] + s[j + 1..];
  }

  lemma OnceInMultiset(s: seq<Fill>, a: nat)
    requires DistinctIds(s) && a < |s|
    ensures multiset(s)[s[a]] == 1
  {
    assert s == s[..a] + [s[a]] + s[a + 1..];
    assert s[a] !in s[..a] && s[a] !in s[a + 1..];
  }

  // ------------------------------------------------------- known and new fills

  lemma {:induction false} FindSome(fs: seq<Fill>, id: string)
    ensures Find(fs, id).Some? ==> Find(fs, id).value in fs && Find(fs, id).value.id == id
    ensures Find(fs, id).None? ==> forall i :: 0 <= i < |fs| ==> fs[i].id != id
  {
    if |fs| > 0 && fs[0].id != id {
      FindSome(fs[1..], id);
      if Find(fs[1..], id).None? {
        assert forall i :: 1 <= i < |fs| ==> fs[i] == fs[1..][i - 1];
      }
    }
  }

  lemma {:induction false} FindIts(fs: seq<Fill>, f: Fill)
    requires DistinctIds(fs) && f in fs
    ensures Find(fs, f.id) == Some(f)
  {
    if fs[0].id != f.id {
      assert f in fs[1..];
      FindIts(fs[1..], f);
    }
  }

  function Old(ms: seq<Fill>, fills: seq<Fill>): seq<Fill> {
    if |ms| == 0 then []
    else Old(Front(ms), fills) + (if Find(fills, Last(ms).id).Some? then [Last(ms)] else [])
  }

  lemma FrontDistinct(fs: seq<Fill>)
    requires |fs| > 0 && DistinctIds(fs)
    ensures DistinctIds(Front(fs)) && forall x :: x in Front(fs) ==> x.id != Last(fs).id
  {
    var f := Front(fs);
    assert forall i :: 0 <= i < |f| ==> f[i] == fs[i];
    forall x | x in f
      ensures x.id != Last(fs).id
    {
      var i :| 0 <= i < |f| && f[i] == x;
      assert fs[i].id != fs[|fs| - 1].id;
    }
  }

  /** Processed and new quantity make up the snapshot. */
  lemma {:induction false} KnownTotals(ms: seq<Fill>, fills: seq<Fill>)
    requires Known(ms, fills).Some?
    ensures Known(ms, fills).value == Total(Old(ms, fills))
    ensures Total(Old(ms, fills)) + Total(Fresh(ms, fills)) == Total(ms)
  {
    if |ms| > 0 {
      KnownTotals(Front(ms), fills);
      TotalAppend(Old(Front(ms), fills), Last(ms));
      TotalAppend(Fresh(Front(ms), fills), Last(ms));
      assert Old(Front(ms), fills) + [] == Old(Front(ms), fills);
      assert Fresh(Front(ms), fills) + [] == Fresh(Front(ms), fills);
    }
  }

  lemma {:induction false} OldMembers(ms: seq<Fill>, fills: seq<Fill>)
    requires DistinctIds(ms) && Known(ms, fills).Some?
    ensures DistinctIds(Old(ms, fills)) && forall f :: f in Old(ms, fills) ==> f in fills && f in ms
  {
    if |ms| > 0 {
      FrontDistinct(ms);
      OldMembers(Front(ms), fills);
      FindSome(fills, Last(ms).id);
      assert ms == Front(ms) + [Last(ms)];
      var r := Old(ms, fills);
      forall i, j | 0 <= i < j < |r|
        ensures r[i].id != r[j].id
      {
        if j == |r| - 1 && r != Old(Front(ms), fills) {
          assert r[i] in Old(Front(ms), fills);
        }
      }
    }
  }

  lemma {:induction false} FreshMembers(ms: seq<Fill>, fills: seq<Fill>)
    requires DistinctIds(ms)
    ensures DistinctIds(Fresh(ms, fills))
    ensures forall f :: f in Fresh(ms, fills) <==> f in ms && Find(fills, f.id).None?
  {
    if |ms| > 0 {
      FrontDistinct(ms);
      FreshMembers(Front(ms), fills);
      assert ms == Front(ms) + [Last(ms)];
      var r := Fresh(ms, fills);
      forall i, j | 0 <= i < j < |r|
        ensures r[i].id != r[j].id
      {
        if j == |r| - 1 && r != Fresh(Front(ms), fills) {
          assert r[i] in Fresh(Front(ms), fills);
        }
      }
    }
  }

  function Without(fs: seq<Fill>, i: nat): seq<Fill>
    requires i < |fs|
  {
    fs[..i] + fs[i + 1..]
  }

  lemma {:induction false} WithoutTotal(fs: seq<Fill>, i: nat)
    requires i < |fs|
    ensures Total(Without(fs, i)) + fs[i].quantity == Total(fs)
  {
    MiddleTotal(fs[..i], fs[i], fs[i + 1..]);
    assert fs[..i] + ([fs[i]] + fs[i + 1..]) == fs;
  }

  lemma {:induction false} MiddleTotal(a: seq<Fill>, x: Fill, b: seq<Fill>)
    ensures Total(a + ([x] + b)) == Total(a + b) + x.quantity
  {
    TotalSplit(a, [x] + b);
    TotalSplit([x], b);
    TotalSplit(a, b);
    OneTotal(x);
  }

  lemma {:induction false} OneTotal(x: Fill)
    ensures Total([x]) == x.quantity
  {
    assert Front([x]) == [];
  }

  lemma WithoutKeeps(fs: seq<Fill>, i: nat, y: Fill)
    requires i < |fs| && y in fs && y != fs[i]
    ensures y in Without(fs, i)
  {
    var j :| 0 <= j < |fs| && fs[j] == y;
    assert Without(fs, i)[if j < i then j else j - 1] == y;
  }

  /** Distinct fills that all occur in `fs` weigh at most what `fs` does. */
  lemma {:induction false} SubTotal(xs: seq<Fill>, fs: seq<Fill>)
    requires DistinctIds(xs) && forall x :: x in xs ==> x in fs
    ensures Total(xs) <= Total(fs)
  {
    if |xs| > 0 {
      var x, front := Last(xs), Front(xs);
      FrontDistinct(xs);
      assert x in xs;
      var i :| 0 <= i < |fs| && fs[i] == x;
      forall y | y in front
        ensures y in Without(fs, i)
      {
        assert y in xs;
        WithoutKeeps(fs, i, y);
      }
      SubTotal(front, Without(fs, i));
      WithoutTotal(fs, i);
    }
  }

  /** When the processed quantity matches, every processed fill is in the snapshot unchanged. */
  lemma {:induction false} KnownCovers(ms: seq<Fill>, fills: seq<Fill>, f: Fill)
    requires DistinctIds(ms) && DistinctIds(fills) && Known(ms, fills) == Some(Total(fills))
    requires f in fills && f.quantity > 0
    ensures f in ms
  {
    KnownTotals(ms, fills);
    OldMembers(ms, fills);
    var xs := Old(ms, fills);
    if f !in xs {
      OneMoreDistinct(xs, fills, f);
      SubTotal(xs + [f], fills);
      TotalAppend(xs, f);
    }
  }

  lemma OneMoreDistinct(xs: seq<Fill>, fills: seq<Fill>, f: Fill)
    requires DistinctIds(xs) && DistinctIds(fills) && (forall x :: x in xs ==> x in fills) && f in fills && f !in xs
    ensures DistinctIds(xs + [f]) && forall x :: x in xs + [f] ==> x in fills
  {
    forall k | 0 <= k < |xs|
      ensures xs[k].id != f.id
    {
      assert xs[k] in xs;
      if xs[k].id == f.id {
        FindIts(fills, f);
        FindIts(fills, xs[k]);
      }
    }
  }

  // ---------------------------------------------------- the order is the snapshot

  /** The status a snapshot stands for. */
  function Meaning(b: BrokerOrder): Status {
    match b.status
    case Open => if b.filled == 0 then Accepted else PartiallyFilled
    case TriggerPending => if b.filled == 0 then Accepted else PartiallyFilled
    case Complete => Filled
    case Cancelled => Canceled
    case BrokerRejected => Rejected
    case _ => Submitted
  }

  /** The fills a snapshot reports. */
  function Reported(trades: seq<BrokerTrade>, cur: Native, o: Owner, b: BrokerOrder, now: int): seq<Fill>
    requires Gathered(trades, cur, o, b, now).Some?
  {
    Sorted(Gathered(trades, cur, o, b, now).value)
  }

  /** `n` is what the snapshot shows: its status, exactly its fills, and their quantity. */
  ghost predicate Shows(n: Native, o: Owner, b: BrokerOrder, ms: seq<Fill>) {
    && n.status == Meaning(b) && SameFills(n.fills, ms) && Total(n.fills) == Total(ms) == b.filled <= n.quantity
    && (n.venueId.Some? ==> n.venueId.value == o.brokerId)
  }

  lemma {:induction false} FreshReal(ms: seq<Fill>, fills: seq<Fill>, venue: string)
    requires DistinctIds(ms) && RealFills(ms, Some(venue))
    ensures RealFills(Fresh(ms, fills), Some(venue))
  {
    FreshMembers(ms, fills);
    var fs := Fresh(ms, fills);
    forall i | 0 <= i < |fs|
      ensures fs[i].quantity > 0 && venue == fs[i].venueId
    {
      assert fs[i] in fs && fs[i] in ms;
    }
  }

  /** The order after acceptance and new fills. */
  ghost predicate Caught(cur: Native, n: Native, o: Owner, ms: seq<Fill>) {
    && Sane(n) && n.fills == cur.fills + Fresh(ms, cur.fills)
    && n == cur.(fills := n.fills, status := n.status, venueId := n.venueId)
    && (n.venueId.Some? ==> n.venueId.value == o.brokerId)
  }

  lemma {:induction false} FillsResult(cur: Native, start: Native, o: Owner, ms: seq<Fill>)
    requires Sane(start) && start == cur.(status := start.status, venueId := start.venueId)
    requires start.venueId.Some? ==> start.venueId.value == o.brokerId
    requires DistinctIds(ms) && RealFills(ms, Some(o.brokerId))
    requires AppliedAll(start, FillEvents(Fresh(ms, cur.fills))).Some?
    ensures var n := AppliedAll(start, FillEvents(Fresh(ms, cur.fills))).value;
            && Caught(cur, n, o, ms)
            && (start.status != Submitted ==> n.status != Submitted) && (start.venueId.Some? ==> n.venueId.Some?)
            && (n.status in {Submitted, Rejected} ==> n == start)
  {
    FreshReal(ms, cur.fills, o.brokerId);
    AppliedFills(start, Fresh(ms, cur.fills), o.brokerId);
  }

  lemma {:induction false} ProgressResult(cur: Native, o: Owner, b: BrokerOrder, ms: seq<Fill>)
    requires Sane(cur) && b.updatedAt.Some? && (cur.venueId.Some? ==> cur.venueId.value == o.brokerId)
    requires DistinctIds(ms) && RealFills(ms, Some(o.brokerId))
    requires Progress(cur, o, b, ms).Some? && AppliedAll(cur, Progress(cur, o, b, ms).value).Some?
    ensures var n := AppliedAll(cur, Progress(cur, o, b, ms).value).value;
            && Caught(cur, n, o, ms)
            && (b.status != BrokerRejected ==> n.status != Submitted)
  {
    var fills := FillEvents(Fresh(ms, cur.fills));
    if b.status != BrokerRejected && cur.status == Submitted {
      var e := OrderAccepted(o.brokerId, b.acceptedAt.value.value);
      AppliedSplit(cur, [e], fills);
      assert Front([e]) == [];
      assert AppliedAll(cur, [e]) == Applied(cur, e);
      AppliedSane(cur, e);
      FillsResult(cur, Applied(cur, e).value, o, ms);
    } else {
      FillsResult(cur, cur, o, ms);
    }
  }

  /** The order's fills after the progress are the snapshot's. */
  lemma {:induction false} CaughtFills(cur: Native, n: Native, o: Owner, ms: seq<Fill>)
    requires Sane(cur) && Caught(cur, n, o, ms)
    requires DistinctIds(ms) && Known(ms, cur.fills) == Some(Total(cur.fills))
    ensures SameFills(n.fills, ms) && Total(n.fills) == Total(ms)
  {
    KnownTotals(ms, cur.fills);
    TotalSplit(cur.fills, Fresh(ms, cur.fills));
    FreshMembers(ms, cur.fills);
    forall f
      ensures f in n.fills <==> f in ms
    {
      if f in cur.fills {
        KnownCovers(ms, cur.fills, f);
      } else if f in ms && Find(cur.fills, f.id).Some? {
        KnownMember(ms, cur.fills, f);
      }
    }
  }

  lemma {:induction false} KnownMember(ms: seq<Fill>, fills: seq<Fill>, f: Fill)
    requires Known(ms, fills).Some? && f in ms && Find(fills, f.id).Some?
    ensures f in fills
  {
    if f == Last(ms) {
      FindSome(fills, f.id);
    } else {
      assert f in Front(ms);
      KnownMember(Front(ms), fills, f);
    }
  }

  lemma {:induction false} EndingResult(n: Native, b: BrokerOrder)
    requires Sane(n) && b.updatedAt.Some? && AppliedAll(n, Ending(b, n.status)).Some? && EndsWell(b, n.status)
    requires !Pending(b.status) && b.status != OtherStatus && Total(n.fills) == b.filled
    ensures var m := AppliedAll(n, Ending(b, n.status)).value;
            Sane(m) && m.status == Meaning(b) && m == n.(status := m.status)
  {
    var es := Ending(b, n.status);
    if |es| > 0 {
      assert Front(es) == [];
      assert AppliedAll(n, []) == Some(n);
      AppliedSane(n, es[0]);
    }
  }

  /** Reconciliation, apart from the snapshot's reading. */
  lemma {:induction false} DerivedShows(cur: Native, o: Owner, b: BrokerOrder, ms: seq<Fill>)
    requires Sane(cur) && b.updatedAt.Some? && (cur.venueId.Some? ==> cur.venueId.value == o.brokerId)
    requires DistinctIds(ms) && RealFills(ms, Some(o.brokerId)) && Known(ms, cur.fills) == Some(Total(cur.fills))
    requires !Lags(ms, b) && Derived(cur, o, b, ms).Ok?
    ensures var m := AppliedAll(cur, Derived(cur, o, b, ms).value);
            m.Some? && Sane(m.value) && Shows(m.value, o, b, ms)
            && m.value == cur.(fills := m.value.fills, status := m.value.status, venueId := m.value.venueId)
  {
    if Pending(b.status) {
      NoFills(ms, Some(o.brokerId));
      NoFills(cur.fills, cur.venueId);
    } else {
      ProgressResult(cur, o, b, ms);
      var es := Progress(cur, o, b, ms).value;
      var n := AppliedAll(cur, es).value;
      CaughtFills(cur, n, o, ms);
      EndingResult(n, b);
      AppliedSplit(cur, es, Ending(b, n.status));
    }
  }

  // ------------------------------------------------------------------ theorems

  lemma {:induction false} ReportedSane(trades: seq<BrokerTrade>, cur: Native, o: Owner, b: BrokerOrder, now: int)
    requires Gathered(trades, cur, o, b, now).Some?
    ensures var ms := Reported(trades, cur, o, b, now);
            DistinctIds(ms) && RealFills(ms, Some(o.brokerId)) && SameFills(ms, Gathered(trades, cur, o, b, now).value)
  {
    GatheredSane(trades, cur, o, b, now);
    SortedSane(Gathered(trades, cur, o, b, now).value, Some(o.brokerId));
  }

  /** The order after a successful reconciliation. */
  function Outcome(cur: Native, o: Owner, b: BrokerOrder, trades: seq<BrokerTrade>, now: int): Option<Native> {
    match Reconciled(cur, o, b, trades, now)
    case Ok(es) => AppliedAll(cur, es)
    case Err(_) => None
  }

  /** Exactly-once fills: after any successful reconciliation the order is what the snapshot shows. Its
      status is the snapshot's meaning, its fills are exactly the snapshot's distinct trades, and their
      sum is the broker's filled quantity, at most the order's. */
  lemma {:induction false} ReconciledOrderShowsSnapshot(
      cur: Native, o: Owner, b: BrokerOrder, trades: seq<BrokerTrade>, now: int)
    requires Sane(cur) && Reconciled(cur, o, b, trades, now).Ok?
    ensures Gathered(trades, cur, o, b, now).Some?
    ensures var n := Outcome(cur, o, b, trades, now);
            n.Some? && Sane(n.value) && Shows(n.value, o, b, Reported(trades, cur, o, b, now))
            && n.value == cur.(fills := n.value.fills, status := n.value.status, venueId := n.value.venueId)
  {
    ReportedSane(trades, cur, o, b, now);
    DerivedShows(cur, o, b, Reported(trades, cur, o, b, now));
  }

  /** The trade list is read the same for every state of one order. */
  lemma {:induction false} GatheredSame(
      trades: seq<BrokerTrade>, cur: Native, n: Native, o: Owner, b: BrokerOrder, now: int)
    requires n.side == cur.side
    ensures Gathered(trades, n, o, b, now) == Gathered(trades, cur, o, b, now)
  {
    if |trades| > 0 {
      GatheredSame(Front(trades), cur, n, o, b, now);
    }
  }

  lemma {:induction false} AllKnown(ms: seq<Fill>, fills: seq<Fill>)
    requires DistinctIds(fills) && forall f :: f in ms ==> f in fills
    ensures Known(ms, fills) == Some(Total(ms)) && Fresh(ms, fills) == []
  {
    if |ms| > 0 {
      assert Last(ms) in ms;
      assert forall f :: f in Front(ms) ==> f in ms;
      AllKnown(Front(ms), fills);
      FindIts(fills, Last(ms));
    }
  }

  /** What was acceptable stays so as the clock moves on. */
  lemma {:induction false} GatheredLater(
      trades: seq<BrokerTrade>, n: Native, o: Owner, b: BrokerOrder, now: int, later: int)
    requires now <= later && Gathered(trades, n, o, b, now).Some?
    ensures Gathered(trades, n, o, b, later) == Gathered(trades, n, o, b, now)
  {
    if |trades| > 0 {
      GatheredLater(Front(trades), n, o, b, now, later);
    }
  }

  /** Nothing is counted twice: reconciling the snapshot the order already shows, at any later time, yields
      no event. */
  lemma SameSnapshotIsSilent(cur: Native, o: Owner, b: BrokerOrder, trades: seq<BrokerTrade>, now: int, later: int)
    requires Sane(cur) && Reconciled(cur, o, b, trades, now).Ok? && now <= later
    ensures Outcome(cur, o, b, trades, now).Some?
    ensures Reconciled(Outcome(cur, o, b, trades, now).value, o, b, trades, later) == Ok([])
  {
    ReconciledOrderShowsSnapshot(cur, o, b, trades, now);
    var n := Outcome(cur, o, b, trades, now).value;
    var ms := Reported(trades, cur, o, b, now);
    GatheredSame(trades, cur, n, o, b, now);
    GatheredLater(trades, n, o, b, now, later);
    AllKnown(ms, n.fills);
    assert HeaderOk(n, o, b, later);
    ShownIsSilent(n, o, b, ms);
  }

  lemma {:induction false} ShownIsSilent(n: Native, o: Owner, b: BrokerOrder, ms: seq<Fill>)
    requires Sane(n) && b.updatedAt.Some? && Shows(n, o, b, ms) && Fresh(ms, n.fills) == []
    requires b.status != OtherStatus && (Pending(b.status) || StatusFits(b, Total(ms)))
    ensures Derived(n, o, b, ms) == Ok([])
  {
    assert FillEvents([]) == [];
    assert AppliedAll(n, []) == Some(n);
    if !Pending(b.status) {
      assert Progress(n, o, b, ms) == Some([]);
      assert Ending(b, n.status) == [];
      assert [] + Ending(b, n.status) == [];
    }
  }

  /** A processed fill that a snapshot drops or alters is an integrity failure, never a lag. */
  lemma LostFillIsIntegrity(cur: Native, o: Owner, b: BrokerOrder, trades: seq<BrokerTrade>, now: int, f: Fill)
    requires Sane(cur) && f in cur.fills
    requires forall i :: 0 <= i < |trades| ==> !Reports(trades[i], f, cur, o, b, now)
    ensures Reconciled(cur, o, b, trades, now) == Err(Integrity)
  {
    if Gathered(trades, cur, o, b, now).Some? {
      if Known(Reported(trades, cur, o, b, now), cur.fills) == Some(Total(cur.fills)) {
        KnownIsReported(cur, o, b, trades, now, f);
      }
    }
  }

  lemma {:induction false} KnownIsReported(
      cur: Native, o: Owner, b: BrokerOrder, trades: seq<BrokerTrade>, now: int, f: Fill)
    requires Sane(cur) && f in cur.fills && Gathered(trades, cur, o, b, now).Some?
    requires Known(Reported(trades, cur, o, b, now), cur.fills) == Some(Total(cur.fills))
    ensures exists i :: 0 <= i < |trades| && Reports(trades[i], f, cur, o, b, now)
  {
    GatheredSane(trades, cur, o, b, now);
    ReportedSane(trades, cur, o, b, now);
    KnownCovers(Reported(trades, cur, o, b, now), cur.fills, f);
    assert f in Gathered(trades, cur, o, b, now).value;
  }

  /** Lag means exactly: the snapshot reads well, every processed fill is in it unchanged, and a trade
      is newer than the order's update or the quantities differ. */
  lemma {:induction false} LagExactly(cur: Native, o: Owner, b: BrokerOrder, trades: seq<BrokerTrade>, now: int)
    requires Sane(cur)
    ensures Reconciled(cur, o, b, trades, now) == Err(ObservationLag)
            <==> && HeaderOk(cur, o, b, now) && Gathered(trades, cur, o, b, now).Some?
                 && Unchanged(Reported(trades, cur, o, b, now), cur.fills)
                 && Lags(Reported(trades, cur, o, b, now), b)
  {
    if HeaderOk(cur, o, b, now) && Gathered(trades, cur, o, b, now).Some? {
      ReportedSane(trades, cur, o, b, now);
      KnownExactly(Reported(trades, cur, o, b, now), cur.fills, cur.venueId);
    }
  }

  /** The processed fills are in the snapshot, unchanged. */
  ghost predicate Unchanged(ms: seq<Fill>, fills: seq<Fill>) {
    && (forall f :: f in fills ==> f in ms)
    && (forall f :: f in ms && HasId(fills, f.id) ==> f in fills)
  }

  lemma {:induction false} KnownExactly(ms: seq<Fill>, fills: seq<Fill>, venue: Option<string>)
    requires DistinctIds(ms) && DistinctIds(fills) && RealFills(fills, venue)
    ensures Known(ms, fills) == Some(Total(fills)) <==> Unchanged(ms, fills)
  {
    if Known(ms, fills) == Some(Total(fills)) {
      KnownMeansUnchanged(ms, fills, venue);
    }
    if Unchanged(ms, fills) {
      UnchangedIsKnown(ms, fills);
    }
  }

  lemma {:induction false} KnownMeansUnchanged(ms: seq<Fill>, fills: seq<Fill>, venue: Option<string>)
    requires DistinctIds(ms) && DistinctIds(fills) && RealFills(fills, venue)
    requires Known(ms, fills) == Some(Total(fills))
    ensures Unchanged(ms, fills)
  {
    forall f | f in fills
      ensures f in ms
    {
      var i :| 0 <= i < |fills| && fills[i] == f;
      assert fills[i].quantity > 0;
      KnownCovers(ms, fills, f);
    }
    forall f | f in ms && HasId(fills, f.id)
      ensures f in fills
    {
      FindSome(fills, f.id);
      KnownMember(ms, fills, f);
    }
  }

  ghost predicate Within(xs: seq<Fill>, fs: seq<Fill>) {
    forall x :: x in xs ==> x in fs
  }

  lemma {:induction false} SameTotals(xs: seq<Fill>, fs: seq<Fill>)
    requires DistinctIds(xs) && DistinctIds(fs) && Within(xs, fs) && Within(fs, xs)
    ensures Total(xs) == Total(fs)
  {
    SubTotal(xs, fs);
    SubTotal(fs, xs);
  }

  lemma {:induction false} OldIsFills(ms: seq<Fill>, fills: seq<Fill>)
    requires DistinctIds(ms) && DistinctIds(fills) && Unchanged(ms, fills) && Known(ms, fills).Some?
    ensures DistinctIds(Old(ms, fills)) && Within(Old(ms, fills), fills) && Within(fills, Old(ms, fills))
  {
    OldMembers(ms, fills);
    OldHolds(ms, fills);
  }

  lemma {:induction false} UnchangedIsKnown(ms: seq<Fill>, fills: seq<Fill>)
    requires DistinctIds(ms) && DistinctIds(fills) && Unchanged(ms, fills)
    ensures Known(ms, fills) == Some(Total(fills))
  {
    KnownWhenUnchanged(ms, fills);
    KnownTotals(ms, fills);
    OldIsFills(ms, fills);
    SameTotals(Old(ms, fills), fills);
  }

  lemma {:induction false} KnownWhenUnchanged(ms: seq<Fill>, fills: seq<Fill>)
    requires DistinctIds(fills) && forall f :: f in ms && HasId(fills, f.id) ==> f in fills
    ensures Known(ms, fills).Some?
  {
    if |ms| > 0 {
      assert forall f :: f in Front(ms) ==> f in ms;
      assert Last(ms) in ms;
      KnownWhenUnchanged(Front(ms), fills);
      FindSome(fills, Last(ms).id);
      if Find(fills, Last(ms).id).Some? {
        var g := Find(fills, Last(ms).id).value;
        var i :| 0 <= i < |fills| && fills[i] == g;
        assert fills[i].id == Last(ms).id;
        FindIts(fills, Last(ms));
      }
    }
  }

  lemma {:induction false} OldHolds(ms: seq<Fill>, fills: seq<Fill>)
    requires DistinctIds(fills)
    ensures forall f :: f in ms && f in fills ==> f in Old(ms, fills)
  {
    if |ms| > 0 {
      OldHolds(Front(ms), fills);
      assert ms == Front(ms) + [Last(ms)];
      if Last(ms) in fills {
        FindIts(fills, Last(ms));
      }
    }
  }

  // --------------------------------------------------------- path independence

  datatype Observation = Observation(b: BrokerOrder, trades: seq<BrokerTrade>, now: int)

  /** The order after a sequence of successful observations; None once one fails. */
  function Observed(cur: Native, o: Owner, obs: seq<Observation>): Option<Native> {
    if |obs| == 0 then Some(cur)
    else
      var n := Observed(cur, o, Front(obs));
      if n.None? then None else Outcome(n.value, o, Last(obs).b, Last(obs).trades, Last(obs).now)
  }

  lemma {:induction false} ObservedSane(cur: Native, o: Owner, obs: seq<Observation>)
    requires Sane(cur) && Observed(cur, o, obs).Some?
    ensures Sane(Observed(cur, o, obs).value) && Observed(cur, o, obs).value.side == cur.side
  {
    if |obs| > 0 {
      ObservedSane(cur, o, Front(obs));
      ReconciledOrderShowsSnapshot(Observed(cur, o, Front(obs)).value, o, Last(obs).b, Last(obs).trades, Last(obs).now);
    }
  }

  /** Path independence: after any sequence of successful observations the order shows the last one.
      Its status, fills and filled quantity are what reconciling that observation alone gives, from any
      state of the same order from which that succeeds. */
  lemma {:induction false} OnlyTheLastObservationCounts(cur: Native, o: Owner, obs: seq<Observation>, other: Native)
    requires |obs| > 0 && Sane(cur) && Observed(cur, o, obs).Some? && Sane(other) && other.side == cur.side
    ensures var n := Observed(cur, o, obs).value;
            var last := Last(obs);
            && Gathered(last.trades, cur, o, last.b, last.now).Some?
            && Shows(n, o, last.b, Reported(last.trades, cur, o, last.b, last.now))
            && (Outcome(other, o, last.b, last.trades, last.now).Some? ==>
                  var d := Outcome(other, o, last.b, last.trades, last.now).value;
                  d.status == n.status && SameFills(d.fills, n.fills) && Total(d.fills) == Total(n.fills))
  {
    ObservedSane(cur, o, Front(obs));
    var mid := Observed(cur, o, Front(obs)).value;
    var last := Last(obs);
    ReconciledOrderShowsSnapshot(mid, o, last.b, last.trades, last.now);
    GatheredSame(last.trades, mid, cur, o, last.b, last.now);
    if Outcome(other, o, last.b, last.trades, last.now).Some? {
      ReconciledOrderShowsSnapshot(other, o, last.b, last.trades, last.now);
      GatheredSame(last.trades, mid, other, o, last.b, last.now);
    }
  }

  // ----------------------------------------------------------- order of trades

  lemma {:induction false} TextOrder(a: string, b: string, c: string)
    ensures !TextLess(a, a)
    ensures TextLess(a, b) && TextLess(b, c) ==> TextLess(a, c)
    ensures a != b ==> TextLess(a, b) || TextLess(b, a)
    decreases |a| + |b| + |c|
  {
    if |a| > 0 {
      TextOrder(a[1..], if |b| > 0 then b[1..] else b, if |c| > 0 then c[1..] else c);
      if |b| > 0 && a[0] == b[0] && a[1..] == b[1..] {
        assert a == [a[0]] + a[1..] && b == [b[0]] + b[1..];
      }
    }
  }

  ghost predicate Rising(fs: seq<Fill>) {
    forall i, j :: 0 <= i < j < |fs| ==> FillLess(fs[i], fs[j])
  }

  lemma FillOrder(x: Fill, y: Fill, z: Fill)
    ensures !FillLess(x, x) && (FillLess(x, y) && FillLess(y, z) ==> FillLess(x, z))
    ensures x.id != y.id ==> FillLess(x, y) || FillLess(y, x)
  {
    TextOrder(x.id, y.id, z.id);
  }

  lemma {:induction false} InsertRising(fs: seq<Fill>, x: Fill)
    requires Rising(fs) && forall f :: f in fs ==> f.id != x.id
    ensures Rising(Insert(fs, x))
  {
    if |fs| > 0 {
      if FillLess(x, fs[0]) {
        PrependRising(x, fs);
      } else {
        var tail := fs[1..];
        TailRising(fs);
        forall f | f in tail
          ensures f.id != x.id
        {
          assert f in fs;
        }
        InsertRising(tail, x);
        InsertAbove(fs[0], tail, x);
        PrependRising(fs[0], Insert(tail, x));
      }
    }
  }

  lemma TailRising(fs: seq<Fill>)
    requires Rising(fs) && |fs| > 0
    ensures Rising(fs[1..]) && forall f :: f in fs[1..] ==> FillLess(fs[0], f)
  {
    forall i, j | 0 <= i < j < |fs[1..]|
      ensures FillLess(fs[1..][i], fs[1..][j])
    {
      assert fs[1..][i] == fs[i + 1] && fs[1..][j] == fs[j + 1];
    }
  }

  lemma PrependRising(x: Fill, fs: seq<Fill>)
    requires Rising(fs) && (|fs| > 0 ==> FillLess(x, fs[0]))
    ensures Rising([x] + fs)
  {
    forall i, j | 0 <= i < j < |[x] + fs|
      ensures FillLess(([x] + fs)[i], ([x] + fs)[j])
    {
      if i == 0 && j > 1 {
        FillOrder(x, fs[0], fs[j - 1]);
      }
    }
  }

  /** The first fill stays before everything inserted behind it. */
  lemma {:induction false} InsertAbove(y: Fill, tail: seq<Fill>, x: Fill)
    requires (forall f :: f in tail ==> FillLess(y, f)) && !FillLess(x, y) && x.id != y.id
    ensures |Insert(tail, x)| > 0 && FillLess(y, Insert(tail, x)[0])
  {
    FillOrder(x, y, x);
    InsertKeeps(tail, x);
    var t := Insert(tail, x);
    if t[0] != x {
      assert t[0] in multiset(t) && t[0] in tail;
    }
  }

  lemma {:induction false} SortedRising(fs: seq<Fill>)
    requires DistinctIds(fs)
    ensures Rising(Sorted(fs))
  {
    if |fs| > 0 {
      FrontDistinct(fs);
      SortedRising(Front(fs));
      SortKeeps(Front(fs));
      forall f | f in Sorted(Front(fs))
        ensures f.id != Last(fs).id
      {
        assert f in multiset(Sorted(Front(fs)));
        assert f in Front(fs);
      }
      InsertRising(Sorted(Front(fs)), Last(fs));
    }
  }

  /** The first of a rising sequence is its least member. */
  lemma RisingHead(a: seq<Fill>, b: seq<Fill>)
    requires Rising(a) && Rising(b) && |a| > 0 && |b| > 0 && a[0] in b && b[0] in a
    ensures a[0] == b[0]
  {
    var i :| 0 <= i < |b| && b[i] == a[0];
    var j :| 0 <= j < |a| && a[j] == b[0];
    FillOrder(a[0], b[0], a[0]);
  }

  lemma RisingTail(a: seq<Fill>)
    requires Rising(a) && |a| > 0
    ensures Rising(a[1..]) && multiset(a[1..]) == multiset(a) - multiset{a[0]}
  {
    assert a == [a[0]] + a[1..];
    assert forall k :: 0 <= k < |a[1..]| ==> a[1..][k] == a[k + 1];
  }

  lemma SameMembers(a: seq<Fill>, b: seq<Fill>)
    requires multiset(a) == multiset(b)
    ensures |a| == |b| && forall x :: x in a ==> x in b
  {
    assert |multiset(a)| == |a| && |multiset(b)| == |b|;
    forall x | x in a
      ensures x in b
    {
      assert x in multiset(a);
    }
  }

  /** A rising sequence is determined by its members. */
  lemma {:induction false} RisingUnique(a: seq<Fill>, b: seq<Fill>)
    requires Rising(a) && Rising(b) && multiset(a) == multiset(b)
    ensures a == b
  {
    SameMembers(a, b);
    if |a| > 0 {
      SameMembers(b, a);
      RisingHead(a, b);
      RisingTail(a);
      RisingTail(b);
      RisingUnique(a[1..], b[1..]);
      assert a == [a[0]] + a[1..] && b == [b[0]] + b[1..];
    }
  }

  /** Two readings of the same trades: both fail or both report the same fills. */
  ghost predicate SameReading(x: Option<seq<Fill>>, y: Option<seq<Fill>>) {
    x.Some? == y.Some? && (x.Some? ==> multiset(x.value) == multiset(y.value))
  }

  lemma WithoutMembers(fs: seq<Fill>, i: nat)
    requires i < |fs|
    ensures multiset(Without(fs, i)) == multiset(fs) - multiset{fs[i]}
  {
    assert fs == fs[..i] + ([fs[i]] + fs[i + 1..]);
  }

  lemma {:induction false} TotalOfMembers(a: seq<Fill>, b: seq<Fill>)
    requires multiset(a) == multiset(b)
    ensures Total(a) == Total(b)
  {
    if |a| > 0 {
      var x := Last(a);
      assert x in a && x in multiset(b);
      var i :| 0 <= i < |b| && b[i] == x;
      WithoutMembers(a, |a| - 1);
      WithoutMembers(b, i);
      assert Without(a, |a| - 1) == Front(a);
      TotalOfMembers(Front(a), Without(b, i));
      WithoutTotal(b, i);
    } else {
      assert |multiset(b)| == |b|;
    }
  }

  lemma HasIdOfMembers(a: seq<Fill>, b: seq<Fill>, id: string)
    requires multiset(a) == multiset(b)
    ensures HasId(a, id) <==> HasId(b, id)
  {
    if HasId(a, id) {
      var i :| 0 <= i < |a| && a[i].id == id;
      assert a[i] in multiset(b);
    }
    if HasId(b, id) {
      var i :| 0 <= i < |b| && b[i].id == id;
      assert b[i] in multiset(a);
    }
  }

  /** One more trade read after equal readings. */
  lemma {:induction false} ReadOne(
      s: seq<BrokerTrade>, s2: seq<BrokerTrade>, t: BrokerTrade, cur: Native, o: Owner, b: BrokerOrder, now: int)
    requires SameReading(Gathered(s, cur, o, b, now), Gathered(s2, cur, o, b, now))
    ensures SameReading(Gathered(s + [t], cur, o, b, now), Gathered(s2 + [t], cur, o, b, now))
  {
    assert Front(s + [t]) == s && Front(s2 + [t]) == s2;
    if Gathered(s, cur, o, b, now).Some? {
      var g, g2 := Gathered(s, cur, o, b, now).value, Gathered(s2, cur, o, b, now).value;
      TotalOfMembers(g, g2);
      HasIdOfMembers(g, g2, t.tradeId);
    }
  }

  /** Two neighbouring trades may swap. */
  lemma {:induction false} ReadSwap(
      s: seq<BrokerTrade>, x: BrokerTrade, y: BrokerTrade, cur: Native, o: Owner, b: BrokerOrder, now: int)
    ensures SameReading(Gathered(s + [x, y], cur, o, b, now), Gathered(s + [y, x], cur, o, b, now))
  {
    assert Front(s + [x, y]) == s + [x] && Front(s + [x]) == s;
    assert Front(s + [y, x]) == s + [y] && Front(s + [y]) == s;
    ReadTwice(Gathered(s, cur, o, b, now), x, y, cur, o, b, now);
  }

  lemma ReadTwice(g: Option<seq<Fill>>, x: BrokerTrade, y: BrokerTrade, cur: Native, o: Owner, b: BrokerOrder, now: int)
    ensures SameReading(Read(Read(g, x, cur, o, b, now), y, cur, o, b, now),
            Read(Read(g, y, cur, o, b, now), x, cur, o, b, now))
  {
    if g.Some? && x.orderId == o.brokerId && y.orderId == o.brokerId && TradeOk(x, cur, o, b, now)
        && TradeOk(y, cur, o, b, now) {
      HasIdAppend(g.value, FillOf(x, o));
      TotalAppend(g.value, FillOf(x, o));
      HasIdAppend(g.value, FillOf(y, o));
      TotalAppend(g.value, FillOf(y, o));
    }
  }

  /** A trade may move to the end of the list. */
  lemma {:induction false} ReadMove(
      s: seq<BrokerTrade>, x: BrokerTrade, q: seq<BrokerTrade>, cur: Native, o: Owner, b: BrokerOrder, now: int)
    ensures SameReading(Gathered(s + [x] + q, cur, o, b, now), Gathered(s + q + [x], cur, o, b, now))
  {
    if |q| == 0 {
      assert s + [x] + q == s + [x] && s + q + [x] == s + [x];
    } else {
      var y := Last(q);
      ReadMove(s, x, Front(q), cur, o, b, now);
      ReadOne(s + [x] + Front(q), s + Front(q) + [x], y, cur, o, b, now);
      ReadSwap(s + Front(q), x, y, cur, o, b, now);
      assert s + [x] + Front(q) + [y] == s + [x] + q;
      assert s + Front(q) + [x] + [y] == s + Front(q) + [x, y];
      assert s + Front(q) + [y, x] == s + q + [x];
    }
  }

  lemma {:induction false} ReadAnyOrder(
      a: seq<BrokerTrade>, c: seq<BrokerTrade>, cur: Native, o: Owner, b: BrokerOrder, now: int)
    requires multiset(a) == multiset(c)
    ensures SameReading(Gathered(a, cur, o, b, now), Gathered(c, cur, o, b, now))
  {
    if |a| > 0 {
      var x := Last(a);
      assert a == Front(a) + [x];
      assert x in multiset(c);
      var i :| 0 <= i < |c| && c[i] == x;
      var rest := c[..i] + c[i + 1..];
      assert c == c[..i] + [x] + c[i + 1..];
      assert multiset(rest) == multiset(c) - multiset{x};
      ReadAnyOrder(Front(a), rest, cur, o, b, now);
      ReadOne(Front(a), rest, x, cur, o, b, now);
      ReadMove(c[..i], x, c[i + 1..], cur, o, b, now);
    } else {
      assert |multiset(c)| == |c|;
    }
  }

  lemma {:induction false} ReadOwn(trades: seq<BrokerTrade>, cur: Native, o: Owner, b: BrokerOrder, now: int)
    ensures Gathered(trades, cur, o, b, now) == Gathered(Own(trades, o.brokerId), cur, o, b, now)
  {
    if |trades| > 0 {
      ReadOwn(Front(trades), cur, o, b, now);
      var own := Own(Front(trades), o.brokerId);
      assert Front(own + [Last(trades)]) == own;
      assert own + [] == own;
    }
  }

  /** The result does not depend on the order of the trade list or on other orders' trades: two lists
      with the same trades of this order reconcile to the same events, or fail alike. */
  lemma {:induction false} TradeOrderIsIrrelevant(
      cur: Native, o: Owner, b: BrokerOrder, trades: seq<BrokerTrade>, others: seq<BrokerTrade>, now: int)
    requires multiset(Own(trades, o.brokerId)) == multiset(Own(others, o.brokerId))
    ensures Reconciled(cur, o, b, trades, now) == Reconciled(cur, o, b, others, now)
  {
    ReadOwn(trades, cur, o, b, now);
    ReadOwn(others, cur, o, b, now);
    ReadAnyOrder(Own(trades, o.brokerId), Own(others, o.brokerId), cur, o, b, now);
    var g, h := Gathered(trades, cur, o, b, now), Gathered(others, cur, o, b, now);
    if g.Some? {
      GatheredSane(trades, cur, o, b, now);
      GatheredSane(others, cur, o, b, now);
      SortedRising(g.value);
      SortedRising(h.value);
      SortKeeps(g.value);
      SortKeeps(h.value);
      RisingUnique(Sorted(g.value), Sorted(h.value));
    }
  }
}
